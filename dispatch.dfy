/** Dispatch records: `reformat_dispatch`, which flattens one raw dispatch of the
    vendor into a dictionary of display fields, and `get_data`, which fetches the
    dispatches of a date range and reformats each of them. */
module Dispatch {
  import opened Py
  import opened Config
  import opened Api

  /** The top-level keys of a dispatch that are copied as they are. */
  const InitialKeys: seq<string> :=
    ["shiftid", "startdatetime", "enddatetime", "dispatchnotes", "tph", "tpr", "totalsy"]

  /** The attributes collected from the line items, in the order the result gets them. */
  const LineItemKeys: seq<string> := ["phase", "phasedesc", "qty", "notes", "mix", "mixdesc", "job"]

  const Separator := "; "

  const TonnageKey := "Material Tonnage"

  const DispatchMethod := "getDispatchInfo"

  // ---------------------------------------------------------------------------
  // The initial fields and the crew.

  /** `{key: src.get(key) for key in keys if key in src}`. */
  function CopyKeys(src: map<string, Value>, keys: seq<string>): (r: map<string, Value>)
  {
    if keys == [] then map[]
    else
      var m := CopyKeys(src, keys[..|keys| - 1]);
      var key := keys[|keys| - 1];
      if key in src then m[key := src[key]] else m
  }

  /** A key is copied exactly when it is one of the keys and the source holds it,
      and it keeps the source's value. */
  lemma {:induction false} CopyKeysPointwise(src: map<string, Value>, keys: seq<string>)
    ensures forall k :: k in CopyKeys(src, keys) <==> k in keys && k in src
    ensures forall k :: k in CopyKeys(src, keys) ==> CopyKeys(src, keys)[k] == src[k]
  {
    if keys != [] {
      CopyKeysPointwise(src, keys[..|keys| - 1]);
      assert keys == keys[..|keys| - 1] + [keys[|keys| - 1]];
    }
  }

  /** The crew line: first and last name of a crew dictionary that holds both. */
  function CrewName(d: map<string, Value>, b: Builtins): (r: Option<string>)
  {
    var crew := GetOr(d, "crew", JObject(map[]));
    if crew.JObject? && "firstname" in crew.obj && "lastname" in crew.obj then
      Some(Str(crew.obj["firstname"], b) + " " + Str(crew.obj["lastname"], b))
    else None
  }

  /** The result before the fields are applied: the initial keys, then the crew. */
  function Base(d: map<string, Value>, b: Builtins): (r: map<string, Value>)
  {
    var copied := CopyKeys(d, InitialKeys);
    match CrewName(d, b)
    case Some(name) => copied["crew" := JStr(name)]
    case None => copied
  }

  /** The initial keys are copied only when the dispatch holds them, with their
      values; "crew" is set only from a crew dictionary holding a first and a last
      name, to the two names separated by a space; nothing else is set. */
  lemma BaseContents(d: map<string, Value>, b: Builtins)
    ensures var r := Base(d, b);
      && (forall k :: k in r <==> (k in InitialKeys && k in d) || (k == "crew" && CrewName(d, b).Some?))
      && (forall k :: k in InitialKeys && k in d ==> r[k] == d[k])
      && ("crew" in r <==>
            && "crew" in d && d["crew"].JObject?
            && "firstname" in d["crew"].obj && "lastname" in d["crew"].obj)
      && ("crew" in r ==>
            r["crew"] == JStr(Str(d["crew"].obj["firstname"], b) + " " + Str(d["crew"].obj["lastname"], b)))
  {
    CopyKeysPointwise(d, InitialKeys);
    assert "crew" !in InitialKeys;
  }

  // ---------------------------------------------------------------------------
  // The fields.

  /** What a `for` loop over a value meant to be a list of dictionaries (the
      "fields" of a dispatch, the "Items" of a reply) gets to see: the elements of
      a list; nothing from an empty string or dictionary; AttributeError at the
      first `.get` on a character or key of a non-empty one; TypeError for a value
      that cannot be iterated. */
  function DictEntries(v: Value): (r: Result<seq<Value>>)
    ensures v.JArray? ==> r == Ok(v.items)
    ensures v == JStr([]) || v == JObject(map[]) ==> r == Ok([])
    ensures (v.JStr? && v.s != []) || (v.JObject? && v.obj != map[]) ==> r == Err(AttributeError)
    ensures v.JNull? || v.JBool? || v.JNum? ==> r == Err(TypeError)
  {
    match v
    case JArray(xs) => Ok(xs)
    case JStr(s) => if s == [] then Ok([]) else Err(AttributeError)
    case JObject(m) => if m == map[] then Ok([]) else Err(AttributeError)
    case _ => Err(TypeError)
  }

  /** `[item.get("itemdesc", "") for item in items if "itemdesc" in item]`,
      evaluated left to right. */
  function ItemDescs(items: seq<Value>): (r: Result<seq<Value>>)
  {
    if items == [] then Ok([])
    else
      var descs :- ItemDescs(items[..|items| - 1]);
      var item := items[|items| - 1];
      var present :- Contains(item, "itemdesc");
      if !present then Ok(descs)
      else if item.JObject? then Ok(descs + [item.obj["itemdesc"]])
      else Err(AttributeError)
  }

  /** An item the comprehension cannot get past: one that supports no `in`, or
      one that is not a dictionary but "contains" the name. */
  predicate BadDescItem(item: Value) {
    Contains(item, "itemdesc").Err? || (Contains(item, "itemdesc") == Ok(true) && !item.JObject?)
  }

  /** The comprehension fails exactly when some item is bad; otherwise it
      collects, in order, the "itemdesc" of every dictionary that holds one. */
  lemma {:induction false} ItemDescsMeans(items: seq<Value>)
    ensures ItemDescs(items).Ok? <==> forall i :: 0 <= i < |items| ==> !BadDescItem(items[i])
    ensures ItemDescs(items).Ok? ==>
      && |ItemDescs(items).value| <= |items|
      && (forall x :: x in ItemDescs(items).value <==>
            exists i :: 0 <= i < |items| && items[i].JObject? && "itemdesc" in items[i].obj && items[i].obj["itemdesc"] == x)
  {
    if items != [] {
      var init := items[..|items| - 1];
      ItemDescsMeans(init);
      assert forall i :: 0 <= i < |init| ==> items[i] == init[i];
    }
  }

  /** The comprehension over two runs of items is the comprehension over the
      first followed by that over the second: it keeps item order, fails exactly
      when one of the runs fails, and then with the error of the first run that
      does. */
  lemma {:induction false} ItemDescsAppend(a: seq<Value>, b: seq<Value>)
    ensures ItemDescs(a + b).Ok? <==> ItemDescs(a).Ok? && ItemDescs(b).Ok?
    ensures ItemDescs(a + b).Ok? ==> ItemDescs(a + b).value == ItemDescs(a).value + ItemDescs(b).value
    ensures ItemDescs(a).Err? ==> ItemDescs(a + b) == Err(ItemDescs(a).error)
    ensures ItemDescs(a).Ok? && ItemDescs(b).Err? ==> ItemDescs(a + b) == Err(ItemDescs(b).error)
    decreases |b|
  {
    if b == [] {
      assert a + b == a;
    } else {
      var init := b[..|b| - 1];
      ItemDescsAppend(a, init);
      assert (a + b)[..|a + b| - 1] == a + init;
      assert (a + b)[|a + b| - 1] == b[|b| - 1];
    }
  }

  /** One item adds the "itemdesc" of a dictionary that holds one, and nothing
      for any other item the comprehension can get past. */
  lemma ItemDescsOne(x: Value)
    ensures ItemDescs([x]).Ok? <==> !BadDescItem(x)
    ensures x.JObject? ==> ItemDescs([x]) == Ok(if "itemdesc" in x.obj then [x.obj["itemdesc"]] else [])
    ensures !x.JObject? && !BadDescItem(x) ==> ItemDescs([x]) == Ok([])
  {
    assert [x][..0] == [] && ItemDescs([]) == Ok([]);
    if x.JObject? && "itemdesc" in x.obj {
      assert [] + [x.obj["itemdesc"]] == [x.obj["itemdesc"]];
    }
  }

  /** `"; ".join(values)`: TypeError when a value is not a string. */
  function JoinValues(values: seq<Value>): (r: Result<string>)
  {
    var parts :- Texts(values);
    Ok(Join(parts, Separator))
  }

  /** The strings of a list of values that are all strings. */
  function Texts(values: seq<Value>): (r: Result<seq<string>>)
    ensures r.Ok? <==> forall i :: 0 <= i < |values| ==> values[i].JStr?
    ensures r.Ok? ==> |r.value| == |values| && forall i :: 0 <= i < |values| ==> r.value[i] == values[i].s
    ensures r.Err? ==> r.error == TypeError
  {
    if values == [] then Ok([])
    else
      var init :- Texts(values[..|values| - 1]);
      var last := values[|values| - 1];
      if last.JStr? then Ok(init + [last.s]) else Err(TypeError)
  }

  /** `field.get("itemdesc") or field.get("itemvalue")`, a list of which is joined
      from the descriptions of its items. */
  function FieldValue(field: map<string, Value>): (r: Result<Value>)
  {
    var value := if Truthy(Get(field, "itemdesc")) then Get(field, "itemdesc") else Get(field, "itemvalue");
    if value.JArray? then
      var descs :- ItemDescs(value.items);
      var joined :- JoinValues(descs);
      Ok(JStr(joined))
    else Ok(value)
  }

  /** One iteration of the loop over the fields: `reformatted[catname] = item_value`
      when `catname` is truthy and the value is not None. A list or dictionary is
      not a valid key (TypeError); a truthy number or boolean is a valid Python
      key but not a string (NonStringKey). */
  function FieldStep(acc: map<string, Value>, field: Value): (r: Result<map<string, Value>>)
  {
    if !field.JObject? then Err(AttributeError)
    else
      var catname := Get(field.obj, "catname");
      var value :- FieldValue(field.obj);
      if !Truthy(catname) || value.JNull? then Ok(acc)
      else
        match catname
        case JStr(name) => Ok(acc[name := value])
        case JArray(_) => Err(TypeError)
        case JObject(_) => Err(TypeError)
        case _ => Err(NonStringKey)
  }

  /** The loop over the fields, from `acc` on. */
  function ApplyFields(acc: map<string, Value>, fields: seq<Value>): (r: Result<map<string, Value>>)
    decreases |fields|
  {
    if fields == [] then Ok(acc)
    else
      var next :- FieldStep(acc, fields[0]);
      ApplyFields(next, fields[1..])
  }

  /** The value a field sets for `name`, if it sets one. */
  function Assigned(field: Value, name: string): (r: Option<Value>)
  {
    if field.JObject? && name != [] && Get(field.obj, "catname") == JStr(name) then
      match FieldValue(field.obj)
      case Ok(v) => if v.JNull? then None else Some(v)
      case Err(_) => None
    else None
  }

  /** The value the last field that sets `name` sets it to. */
  function LastAssigned(fields: seq<Value>, name: string): (r: Option<Value>)
  {
    if fields == [] then None
    else
      match LastAssigned(fields[1..], name)
      case Some(v) => Some(v)
      case None => Assigned(fields[0], name)
  }

  /** After the fields are applied, a key holds the value of the last field that
      names it; a key no field names keeps the value it had. */
  lemma {:induction false} ApplyFieldsLastWins(acc: map<string, Value>, fields: seq<Value>)
    requires ApplyFields(acc, fields).Ok?
    ensures var r := ApplyFields(acc, fields).value;
      forall name :: (name in r <==> name in acc || LastAssigned(fields, name).Some?)
        && (name in r ==> r[name] == if LastAssigned(fields, name).Some? then LastAssigned(fields, name).value else acc[name])
    decreases |fields|
  {
    if fields != [] {
      var next := FieldStep(acc, fields[0]).value;
      ApplyFieldsLastWins(next, fields[1..]);
      forall name
        ensures name in next <==> name in acc || Assigned(fields[0], name).Some?
        ensures name in next ==> next[name] == if Assigned(fields[0], name).Some? then Assigned(fields[0], name).value else acc[name]
      {
      }
    }
  }

  // ---------------------------------------------------------------------------
  // The line items.

  /** `key in item and item[key] is not None` can be evaluated on the item. */
  predicate Readable(item: Value, key: string) {
    Contains(item, key).Ok? && (Contains(item, key) == Ok(true) ==> item.JObject?)
  }

  /** An item on which `key in item and item[key] is not None` raises for some
      attribute: one that supports no `in`, or a string or list that "contains"
      the key but cannot be indexed by it. The error is always TypeError. */
  predicate BadLineItem(item: Value) {
    exists t :: 0 <= t < |LineItemKeys| && !Readable(item, LineItemKeys[t])
  }

  /** What the loop over the line items gets to see: the items of a list; the
      characters of a string, which can hold no attribute name and add nothing;
      the keys of a dictionary, which add nothing unless one contains an
      attribute name, where indexing a string by it raises TypeError; TypeError
      for a value that cannot be iterated. */
  function LineItemEntries(v: Value): (r: Result<seq<Value>>)
  {
    match v
    case JArray(xs) => Ok(xs)
    case JStr(_) => Ok([])
    case JObject(m) => if exists k :: k in m && BadLineItem(JStr(k)) then Err(TypeError) else Ok([])
    case _ => Err(TypeError)
  }

  /** The text collected for one attribute: `str(value)`, and for "job" that text
      stripped of semicolons and spaces and then of whitespace. */
  function Text(key: string, v: Value, b: Builtins): (r: string)
  {
    if key == "job" then JobText(v, b) else Str(v, b)
  }

  function JobText(v: Value, b: Builtins): (r: string)
    ensures r == [] || (!IsSpace(r[0]) && !IsSpace(r[|r| - 1]))
  {
    Strip(Strip(Str(v, b), IsSemicolonOrSpace), IsSpace)
  }

  /** The item holds the attribute with a value that is not None. */
  predicate Holds(item: Value, key: string) {
    item.JObject? && key in item.obj && !item.obj[key].JNull?
  }

  /** The text one item adds for an attribute, if any. */
  function Cell(item: Value, key: string, b: Builtins): (r: seq<string>)
  {
    if Holds(item, key) then [Text(key, item.obj[key], b)] else []
  }

  /** The texts of an attribute over all items, in order. */
  function Column(items: seq<Value>, key: string, b: Builtins): (r: seq<string>)
  {
    if items == [] then []
    else Column(items[..|items| - 1], key, b) + Cell(items[|items| - 1], key, b)
  }

  /** One item's contribution to the list of an attribute: its text is
      appended, except that a job text already in the list is skipped. */
  function Gather(list: seq<string>, item: Value, key: string, b: Builtins): (r: seq<string>)
  {
    var cell := Cell(item, key, b);
    if key == "job" && cell != [] && cell[0] in list then list else list + cell
  }

  /** The list collected for an attribute, item by item. */
  function Attr(items: seq<Value>, key: string, b: Builtins): (r: seq<string>)
  {
    if items == [] then []
    else Gather(Attr(items[..|items| - 1], key, b), items[|items| - 1], key, b)
  }

  /** The collected list is the column itself, and for "job" the column without
      its repetitions. */
  lemma {:induction false} AttrIsColumn(items: seq<Value>, key: string, b: Builtins)
    ensures Attr(items, key, b) == if key == "job" then Dedup(Column(items, key, b)) else Column(items, key, b)
  {
    if items != [] {
      var init := items[..|items| - 1];
      var cell := Cell(items[|items| - 1], key, b);
      var col := Column(init, key, b);
      AttrIsColumn(init, key, b);
      assert Column(items, key, b) == col + cell;
      if cell == [] {
        assert col + cell == col;
        assert Attr(items, key, b) == Attr(init, key, b) + cell == Attr(init, key, b);
      } else if key == "job" {
        assert cell == [cell[0]];
        DedupSnoc(col, cell[0]);
      }
    }
  }

  /** Every entry of a column is the text of an item holding the attribute. */
  lemma {:induction false} ColumnSound(items: seq<Value>, key: string, b: Builtins, s: string)
    requires s in Column(items, key, b)
    ensures exists i :: 0 <= i < |items| && Holds(items[i], key) && s == Text(key, items[i].obj[key], b)
  {
    var init := items[..|items| - 1];
    var last := items[|items| - 1];
    if s in Column(init, key, b) {
      ColumnSound(init, key, b, s);
      var i :| 0 <= i < |init| && Holds(init[i], key) && s == Text(key, init[i].obj[key], b);
      assert items[i] == init[i];
    } else {
      assert Holds(last, key) && s == Text(key, last.obj[key], b);
    }
  }

  /** The text of every item holding the attribute is in the column. */
  lemma {:induction false} ColumnComplete(items: seq<Value>, key: string, b: Builtins, i: nat)
    requires i < |items| && Holds(items[i], key)
    ensures Text(key, items[i].obj[key], b) in Column(items, key, b)
  {
    var init := items[..|items| - 1];
    if i < |init| {
      ColumnComplete(init, key, b, i);
      assert items[i] == init[i];
    } else {
      assert Cell(items[i], key, b) == [Text(key, items[i].obj[key], b)];
    }
  }

  /** A column holds exactly the texts of the items that hold the attribute, and
      no more entries than there are items. */
  lemma {:induction false} ColumnElements(items: seq<Value>, key: string, b: Builtins)
    ensures |Column(items, key, b)| <= |items|
    ensures forall s :: s in Column(items, key, b) <==>
      exists i :: 0 <= i < |items| && Holds(items[i], key) && s == Text(key, items[i].obj[key], b)
  {
    if items != [] {
      ColumnElements(items[..|items| - 1], key, b);
    }
    forall s | s in Column(items, key, b)
      ensures exists i :: 0 <= i < |items| && Holds(items[i], key) && s == Text(key, items[i].obj[key], b)
    {
      ColumnSound(items, key, b, s);
    }
    forall i | 0 <= i < |items| && Holds(items[i], key)
      ensures Text(key, items[i].obj[key], b) in Column(items, key, b)
    {
      ColumnComplete(items, key, b, i);
    }
  }

  /** A column has one entry for every item that holds the attribute, in the
      order of the items. */
  lemma {:induction false} ColumnAppend(items: seq<Value>, more: seq<Value>, key: string, b: Builtins)
    ensures Column(items + more, key, b) == Column(items, key, b) + Column(more, key, b)
    decreases |more|
  {
    if more == [] {
      assert items + more == items;
    } else {
      assert (items + more)[..|items + more| - 1] == items + more[..|more| - 1];
      ColumnAppend(items, more[..|more| - 1], key, b);
    }
  }

  /** The job list holds every job text of the items once, in the order of first
      occurrence, and none has leading or trailing whitespace. */
  lemma JobsDistinct(items: seq<Value>, b: Builtins)
    ensures Attr(items, "job", b) == Dedup(Column(items, "job", b))
    ensures var jobs := Attr(items, "job", b);
      && NoDuplicates(jobs)
      && (forall s :: s in jobs <==> exists i :: 0 <= i < |items| && Holds(items[i], "job") && s == JobText(items[i].obj["job"], b))
      && (forall i, j :: 0 <= i < j < |jobs| ==>
            FirstIndex(Column(items, "job", b), jobs[i]) < FirstIndex(Column(items, "job", b), jobs[j]))
      && (forall s :: s in jobs ==> s == [] || (!IsSpace(s[0]) && !IsSpace(s[|s| - 1])))
  {
    AttrIsColumn(items, "job", b);
    JobTexts(items, b);
    DedupKeepsFirstOccurrences(Column(items, "job", b));
  }

  /** The job column holds exactly the job texts of the items, none with leading
      or trailing whitespace. */
  lemma JobTexts(items: seq<Value>, b: Builtins)
    ensures var col := Column(items, "job", b);
      && (forall s :: s in col <==> exists i :: 0 <= i < |items| && Holds(items[i], "job") && s == JobText(items[i].obj["job"], b))
      && (forall s :: s in col ==> s == [] || (!IsSpace(s[0]) && !IsSpace(s[|s| - 1])))
  {
    var col := Column(items, "job", b);
    forall s | s in col
      ensures exists i :: 0 <= i < |items| && Holds(items[i], "job") && s == JobText(items[i].obj["job"], b)
      ensures s == [] || (!IsSpace(s[0]) && !IsSpace(s[|s| - 1]))
    {
      ColumnSound(items, "job", b, s);
      var i :| 0 <= i < |items| && Holds(items[i], "job") && s == Text("job", items[i].obj["job"], b);
      assert s == JobText(items[i].obj["job"], b);
    }
    forall i | 0 <= i < |items| && Holds(items[i], "job")
      ensures JobText(items[i].obj["job"], b) in col
    {
      ColumnComplete(items, "job", b, i);
    }
  }

  // ---------------------------------------------------------------------------
  // The result.

  /** The result after `reformatted[key] = "; ".join(values)` for the first `n`
      attributes. */
  function SetColumns(acc: map<string, Value>, items: seq<Value>, b: Builtins, n: nat): (r: map<string, Value>)
    requires n <= |LineItemKeys|
  {
    if n == 0 then acc
    else
      var key := LineItemKeys[n - 1];
      SetColumns(acc, items, b, n - 1)[key := JStr(Join(Attr(items, key, b), Separator))]
  }

  lemma {:induction false} SetColumnsPointwise(acc: map<string, Value>, items: seq<Value>, b: Builtins, n: nat)
    requires n <= |LineItemKeys|
    ensures forall k :: k in SetColumns(acc, items, b, n) <==> k in acc || k in LineItemKeys[..n]
    ensures forall k :: k in LineItemKeys[..n] ==> SetColumns(acc, items, b, n)[k] == JStr(Join(Attr(items, k, b), Separator))
    ensures forall k :: k in acc && k !in LineItemKeys[..n] ==> SetColumns(acc, items, b, n)[k] == acc[k]
  {
    if n > 0 {
      SetColumnsPointwise(acc, items, b, n - 1);
      assert LineItemKeys[..n] == LineItemKeys[..n - 1] + [LineItemKeys[n - 1]];
    }
  }

  /** Each of the first `n` attributes holds its joined list. */
  lemma {:induction false} SetColumnsHas(acc: map<string, Value>, items: seq<Value>, b: Builtins, n: nat, t: nat)
    requires t < n <= |LineItemKeys|
    ensures LineItemKeys[t] in SetColumns(acc, items, b, n)
    ensures SetColumns(acc, items, b, n)[LineItemKeys[t]] == JStr(Join(Attr(items, LineItemKeys[t], b), Separator))
  {
    if t < n - 1 {
      SetColumnsHas(acc, items, b, n - 1, t);
    }
  }

  /** The total of the quantity column, as Python computes it from the joined text. */
  function Tonnage(items: seq<Value>, b: Builtins): (r: Value) {
    JNum(b.tonnage(Join(Attr(items, "qty", b), Separator)))
  }

  /** The joined attributes and the tonnage, written over the fields. */
  function Finish(acc: map<string, Value>, items: seq<Value>, b: Builtins): (r: map<string, Value>)
  {
    SetColumns(acc, items, b, |LineItemKeys|)[TonnageKey := Tonnage(items, b)]
  }

  /** `reformat_dispatch`. A dispatch that is not a dictionary raises at the first
      `.get` (AttributeError) or the first `in` (TypeError). */
  function Reformat(dispatch: Value, b: Builtins): (r: Result<map<string, Value>>)
  {
    match dispatch
    case JObject(d) =>
      var fields :- DictEntries(GetOr(d, "fields", JArray([])));
      var acc :- ApplyFields(Base(d, b), fields);
      var items :- LineItemEntries(GetOr(d, "lineitems", JArray([])));
      if exists i :: 0 <= i < |items| && BadLineItem(items[i]) then Err(TypeError)
      else Ok(Finish(acc, items, b))
    case JStr(_) => Err(AttributeError)
    case JArray(_) => Err(AttributeError)
    case _ => Err(TypeError)
  }

  /** The fields of a dispatch, once they are known to be iterable. */
  function FieldsOf(d: map<string, Value>): (r: seq<Value>)
    requires DictEntries(GetOr(d, "fields", JArray([]))).Ok?
  {
    DictEntries(GetOr(d, "fields", JArray([]))).value
  }

  /** The line items of a dispatch, once they are known to be iterable. */
  function ItemsOf(d: map<string, Value>): (r: seq<Value>)
    requires LineItemEntries(GetOr(d, "lineitems", JArray([]))).Ok?
  {
    LineItemEntries(GetOr(d, "lineitems", JArray([]))).value
  }

  /** A reformatted dispatch holds every line-item attribute, as the "; "-join of
      its collected texts, and the tonnage of the joined quantities; each other
      key holds the value of the last field naming it, or else the value the
      initial copy and the crew gave it. */
  lemma ReformatResult(d: map<string, Value>, b: Builtins)
    requires Reformat(JObject(d), b).Ok?
    ensures DictEntries(GetOr(d, "fields", JArray([]))).Ok?
    ensures LineItemEntries(GetOr(d, "lineitems", JArray([]))).Ok?
    ensures var r := Reformat(JObject(d), b).value;
      var items := ItemsOf(d);
      var fields := FieldsOf(d);
      && (forall key :: key in LineItemKeys ==> key in r && r[key] == JStr(Join(Attr(items, key, b), Separator)))
      && TonnageKey in r && r[TonnageKey] == Tonnage(items, b)
      && (forall k :: k !in LineItemKeys && k != TonnageKey ==>
            && (k in r <==> k in Base(d, b) || LastAssigned(fields, k).Some?)
            && (k in r ==> r[k] == if LastAssigned(fields, k).Some? then LastAssigned(fields, k).value else Base(d, b)[k]))
  {
    var fields := FieldsOf(d);
    var acc := ApplyFields(Base(d, b), fields).value;
    var items := ItemsOf(d);
    ApplyFieldsLastWins(Base(d, b), fields);
    SetColumnsPointwise(acc, items, b, |LineItemKeys|);
    assert LineItemKeys[..|LineItemKeys|] == LineItemKeys;
  }

  /** A dispatch whose "fields" and "lineitems" are absent or empty lists is
      reformatted without error: every attribute is the empty string and the
      tonnage is that of no quantity. */
  lemma PlainDispatch(d: map<string, Value>, b: Builtins)
    requires GetOr(d, "fields", JArray([])) == JArray([]) && GetOr(d, "lineitems", JArray([])) == JArray([])
    ensures Reformat(JObject(d), b).Ok?
    ensures var r := Reformat(JObject(d), b).value;
      && (forall key :: key in LineItemKeys ==> key in r && r[key] == JStr(""))
      && TonnageKey in r && r[TonnageKey] == JNum(b.tonnage(""))
      && (forall k :: k in r <==> k in Base(d, b) || k in LineItemKeys || k == TonnageKey)
  {
    var r := Finish(Base(d, b), [], b);
    assert DictEntries(GetOr(d, "fields", JArray([]))) == Ok([]);
    assert ApplyFields(Base(d, b), []) == Ok(Base(d, b));
    assert LineItemEntries(GetOr(d, "lineitems", JArray([]))) == Ok([]);
    assert Reformat(JObject(d), b) == Ok(r);
    SetColumnsPointwise(Base(d, b), [], b, |LineItemKeys|);
    assert LineItemKeys[..|LineItemKeys|] == LineItemKeys;
    forall key | key in LineItemKeys
      ensures Join(Attr([], key, b), Separator) == ""
    {
      assert Column([], key, b) == [];
    }
  }

  /** A dispatch whose "fields" is a non-empty dictionary rather than a list fails
      at the first field. */
  lemma FieldsAsDictionaryFail(d: map<string, Value>, b: Builtins)
    requires "fields" in d && d["fields"].JObject? && d["fields"].obj != map[]
    ensures Reformat(JObject(d), b) == Err(AttributeError)
  {
  }

  /** Line items that are all dictionaries never make the reformatting fail. */
  lemma DictionaryItemsNeverFail(d: map<string, Value>, b: Builtins)
    requires "lineitems" in d && d["lineitems"].JArray?
    requires forall i :: 0 <= i < |d["lineitems"].items| ==> d["lineitems"].items[i].JObject?
    requires DictEntries(GetOr(d, "fields", JArray([]))).Ok?
    requires ApplyFields(Base(d, b), FieldsOf(d)).Ok?
    ensures Reformat(JObject(d), b).Ok?
  {
    var items := d["lineitems"].items;
    forall i | 0 <= i < |items|
      ensures !BadLineItem(items[i])
    {
    }
  }

  // ---------------------------------------------------------------------------
  // `reformat_dispatch`, loop by loop.

  /** The list of one attribute after one more item. */
  lemma AttrStep(items: seq<Value>, i: nat, key: string, b: Builtins)
    requires i < |items|
    ensures Attr(items[..i + 1], key, b) == Gather(Attr(items[..i], key, b), items[i], key, b)
  {
    assert items[..i + 1][..i] == items[..i];
  }

  /** The attribute names are distinct. */
  lemma LineItemKeysDistinct()
    ensures forall s, t :: 0 <= s < t < |LineItemKeys| ==> LineItemKeys[s] != LineItemKeys[t]
  {
  }

  /** The lists before the first item: one empty list per attribute. */
  const NoAttrs: map<string, seq<string>> := map key | key in LineItemKeys :: []

  /** The attribute lists collected from the items so far. */
  ghost predicate Collected(attrs: map<string, seq<string>>, items: seq<Value>, b: Builtins) {
    forall t :: 0 <= t < |LineItemKeys| ==>
      LineItemKeys[t] in attrs && attrs[LineItemKeys[t]] == Attr(items, LineItemKeys[t], b)
  }

  lemma NothingCollected(b: Builtins)
    ensures Collected(NoAttrs, [], b)
  {
  }

  /** The initial keys copied from the dispatch, then the crew. */
  method InitialFields(d: map<string, Value>, b: Builtins) returns (reformatted: map<string, Value>)
    ensures reformatted == Base(d, b)
  {
    reformatted := map[];
    for i := 0 to |InitialKeys|
      invariant reformatted == CopyKeys(d, InitialKeys[..i])
    {
      var key := InitialKeys[i];
      assert InitialKeys[..i + 1][..i] == InitialKeys[..i];
      if key in d {
        reformatted := reformatted[key := Get(d, key)];
      }
    }
    assert InitialKeys[..|InitialKeys|] == InitialKeys;
    var crew := GetOr(d, "crew", JObject(map[]));
    if crew.JObject? && "firstname" in crew.obj && "lastname" in crew.obj {
      reformatted := reformatted["crew" := JStr(Str(crew.obj["firstname"], b) + " " + Str(crew.obj["lastname"], b))];
    }
  }

  /** The loop over the fields. */
  method ApplyFieldList(reformatted: map<string, Value>, fields: seq<Value>) returns (r: Result<map<string, Value>>)
    ensures r == ApplyFields(reformatted, fields)
  {
    var acc := reformatted;
    for i := 0 to |fields|
      invariant ApplyFields(reformatted, fields) == ApplyFields(acc, fields[i..])
    {
      var field := fields[i];
      assert fields[i..][1..] == fields[i + 1..];
      if !field.JObject? {
        return Err(AttributeError);
      }
      var catname := Get(field.obj, "catname");
      var itemValue := Get(field.obj, "itemdesc");
      if !Truthy(itemValue) {
        itemValue := Get(field.obj, "itemvalue");
      }
      if itemValue.JArray? {
        var descs := ItemDescs(itemValue.items);
        if descs.Err? {
          return Err(descs.error);
        }
        var joined := JoinValues(descs.value);
        if joined.Err? {
          return Err(joined.error);
        }
        itemValue := JStr(joined.value);
      }
      assert FieldValue(field.obj) == Ok(itemValue);
      if Truthy(catname) && !itemValue.JNull? {
        match catname
        case JStr(name) =>
          acc := acc[name := itemValue];
        case JArray(_) =>
          return Err(TypeError);
        case JObject(_) =>
          return Err(TypeError);
        case _ =>
          return Err(NonStringKey);
      }
    }
    assert fields[|fields|..] == [];
    return Ok(acc);
  }

  /** The body of the loop over the attributes, for one item and one attribute. */
  method AddAttribute(list: seq<string>, item: Value, key: string, b: Builtins) returns (r: Result<seq<string>>)
    ensures r.Ok? <==> Readable(item, key)
    ensures r.Ok? ==> r.value == Gather(list, item, key, b)
    ensures r.Err? ==> r.error == TypeError
  {
    var present := Contains(item, key);
    if present.Err? {
      return Err(TypeError);
    }
    if !present.value {
      return Ok(list);
    }
    if !item.JObject? {
      return Err(TypeError);
    }
    var value := item.obj[key];
    if value.JNull? {
      return Ok(list);
    }
    if key == "job" {
      var jobText := Strip(Strip(Str(value, b), IsSemicolonOrSpace), IsSpace);
      if jobText !in list {
        return Ok(list + [jobText]);
      }
      return Ok(list);
    }
    return Ok(list + [Str(value, b)]);
  }

  /** The lists while one item is being added: the first `j` attributes already
      hold their lists over the first `i + 1` items, the others still those over
      the first `i`. */
  ghost predicate Adding(next: map<string, seq<string>>, items: seq<Value>, i: nat, j: nat, b: Builtins)
    requires i < |items|
  {
    && (forall t :: 0 <= t < |LineItemKeys| ==> LineItemKeys[t] in next)
    && (forall t :: 0 <= t < j && t < |LineItemKeys| ==> next[LineItemKeys[t]] == Attr(items[..i + 1], LineItemKeys[t], b))
    && (forall t :: j <= t < |LineItemKeys| ==> next[LineItemKeys[t]] == Attr(items[..i], LineItemKeys[t], b))
  }

  /** Setting attribute `j` to its list over the first `i + 1` items adds it. */
  lemma AddingStep(next: map<string, seq<string>>, items: seq<Value>, i: nat, j: nat, b: Builtins)
    requires i < |items| && j < |LineItemKeys| && Adding(next, items, i, j, b)
    ensures Adding(next[LineItemKeys[j] := Attr(items[..i + 1], LineItemKeys[j], b)], items, i, j + 1, b)
  {
    var key := LineItemKeys[j];
    var next' := next[key := Attr(items[..i + 1], key, b)];
    LineItemKeysDistinct();
    forall t | 0 <= t < |LineItemKeys| && t != j
      ensures next'[LineItemKeys[t]] == next[LineItemKeys[t]]
    {
      assert LineItemKeys[t] != key;
    }
  }

  /** The loop over the attributes for one line item: each attribute the item
      holds with a value that is not None is appended (a job text only when it is
      new); TypeError when the item cannot be read. */
  method AddLineItem(attrs: map<string, seq<string>>, items: seq<Value>, i: nat, b: Builtins)
    returns (r: Result<map<string, seq<string>>>)
    requires i < |items| && Collected(attrs, items[..i], b)
    ensures r.Ok? <==> !BadLineItem(items[i])
    ensures r.Ok? ==> Collected(r.value, items[..i + 1], b)
    ensures r.Err? ==> r.error == TypeError
  {
    var item := items[i];
    var next := attrs;
    for j := 0 to |LineItemKeys|
      invariant Adding(next, items, i, j, b)
      invariant forall t :: 0 <= t < j ==> Readable(item, LineItemKeys[t])
    {
      var key := LineItemKeys[j];
      var added := AddAttribute(next[key], item, key, b);
      if added.Err? {
        return Err(TypeError);
      }
      AttrStep(items, i, key, b);
      AddingStep(next, items, i, j, b);
      next := next[key := added.value];
    }
    return Ok(next);
  }

  /** The loop over the line items: the collected lists, or TypeError at the
      first item that cannot be read. */
  method CollectLineItems(items: seq<Value>, b: Builtins) returns (r: Result<map<string, seq<string>>>)
    ensures r.Ok? <==> forall i :: 0 <= i < |items| ==> !BadLineItem(items[i])
    ensures r.Ok? ==> forall key :: key in LineItemKeys ==> key in r.value && r.value[key] == Attr(items, key, b)
    ensures r.Err? ==> r.error == TypeError
  {
    var attrs := NoAttrs;
    NothingCollected(b);
    assert items[..0] == [];
    for i := 0 to |items|
      invariant Collected(attrs, items[..i], b)
      invariant forall t :: 0 <= t < i ==> !BadLineItem(items[t])
    {
      var next := AddLineItem(attrs, items, i, b);
      if next.Err? {
        return Err(TypeError);
      }
      attrs := next.value;
      forall t | 0 <= t < i + 1
        ensures !BadLineItem(items[t])
      {
        if t == i {
          assert !BadLineItem(items[i]);
        }
      }
    }
    assert items[..|items|] == items;
    return Ok(attrs);
  }

  /** The loop that joins every attribute list into the result, then the tonnage. */
  method JoinAttributes(reformatted: map<string, Value>, attrs: map<string, seq<string>>, ghost items: seq<Value>, b: Builtins)
    returns (r: map<string, Value>)
    requires Collected(attrs, items, b)
    ensures r == Finish(reformatted, items, b)
  {
    r := reformatted;
    for j := 0 to |LineItemKeys|
      invariant r == SetColumns(reformatted, items, b, j)
    {
      var key := LineItemKeys[j];
      assert attrs[key] == Attr(items, key, b);
      r := r[key := JStr(Join(attrs[key], Separator))];
    }
    SetColumnsHas(reformatted, items, b, |LineItemKeys|, 2);
    if "qty" in r {
      var qty := r["qty"];
      r := r[TonnageKey := JNum(b.tonnage(qty.s))];
    }
  }

  /** `reformat_dispatch`, loop by loop. */
  method ReformatDispatch(dispatch: Value, b: Builtins) returns (r: Result<map<string, Value>>)
    ensures r == Reformat(dispatch, b)
  {
    if !dispatch.JObject? {
      return if dispatch.JStr? || dispatch.JArray? then Err(AttributeError) else Err(TypeError);
    }
    var d := dispatch.obj;
    var reformatted := InitialFields(d, b);
    var fieldList := DictEntries(GetOr(d, "fields", JArray([])));
    if fieldList.Err? {
      return Err(fieldList.error);
    }
    var applied := ApplyFieldList(reformatted, fieldList.value);
    if applied.Err? {
      return Err(applied.error);
    }
    reformatted := applied.value;
    var itemList := LineItemEntries(GetOr(d, "lineitems", JArray([])));
    if itemList.Err? {
      return Err(itemList.error);
    }
    var items := itemList.value;
    var collected := CollectLineItems(items, b);
    if collected.Err? {
      return Err(collected.error);
    }
    reformatted := JoinAttributes(reformatted, collected.value, items, b);
    return Ok(reformatted);
  }

  // ---------------------------------------------------------------------------
  // `get_data`.

  /** `[reformat_dispatch(dispatch) for dispatch in dispatches]`. */
  function ReformatAll(dispatches: seq<Value>, b: Builtins): (r: Result<seq<map<string, Value>>>)
  {
    MapResults(dispatches, d => Reformat(d, b))
  }

  /** The dispatches of a reply: `data.get("Items", [])`, each reformatted. */
  function ReformatReply(data: Value, b: Builtins): (r: Result<seq<map<string, Value>>>)
  {
    if !data.JObject? then Err(AttributeError)
    else
      var dispatches :- DictEntries(GetOr(data.obj, "Items", JArray([])));
      ReformatAll(dispatches, b)
  }

  /** `get_data`: the dispatch request, then the reply reformatted. */
  function FetchDispatches(startDate: string, endDate: string, w: World, b: Builtins): (r: Outcome<seq<map<string, Value>>>)
  {
    var o := Call(DispatchMethod, startDate, endDate, w, 1);
    match o.result
    case Err(e) => Outcome(Err(e), o.world)
    case Ok(data) => Outcome(ReformatReply(data, b), o.world)
  }

  method GetData(startDate: string, endDate: string, w: World, b: Builtins)
    returns (r: Result<seq<map<string, Value>>>, w': World)
    ensures Outcome(r, w') == FetchDispatches(startDate, endDate, w, b)
  {
    var data;
    data, w' := MakeApiCall(DispatchMethod, startDate, endDate, w, 1);
    if data.Err? {
      return Err(data.error), w';
    }
    if !data.value.JObject? {
      return Err(AttributeError), w';
    }
    var entries := DictEntries(GetOr(data.value.obj, "Items", JArray([])));
    if entries.Err? {
      return Err(entries.error), w';
    }
    var dispatches := entries.value;
    ghost var f := d => Reformat(d, b);
    var results := [];
    for i := 0 to |dispatches|
      invariant MapResults(dispatches[..i], f) == Ok(results)
    {
      var one := ReformatDispatch(dispatches[i], b);
      if one.Err? {
        MapResultsStops(dispatches, f, i, |dispatches|);
        assert dispatches[..|dispatches|] == dispatches;
        return Err(one.error), w';
      }
      MapResultsSnoc(dispatches, f, i);
      results := results + [one.value];
    }
    assert dispatches[..|dispatches|] == dispatches;
    r := Ok(results);
  }

  /** What `get_data` returns: one reformatted dispatch per entry of the "Items"
      of the last reply to the dispatch request, in order; an absent "Items"
      gives the empty list. */
  lemma GetDataResult(startDate: string, endDate: string, w: World, b: Builtins)
    ensures var o := FetchDispatches(startDate, endDate, w, b);
      var call := Call(DispatchMethod, startDate, endDate, w, 1);
      o.world == call.world
      && (o.result.Ok? ==>
            && call.result.Ok? && call.result.value.JObject?
            && var log := call.world.log;
               && |log| > |w.log| && log[|log| - 1].reply == Json(call.result.value)
               && var dispatches := DictEntries(GetOr(call.result.value.obj, "Items", JArray([])));
                  && dispatches.Ok?
                  && |o.result.value| == |dispatches.value|
                  && (forall i :: 0 <= i < |dispatches.value| ==> Reformat(dispatches.value[i], b) == Ok(o.result.value[i]))
                  && ("Items" !in call.result.value.obj ==> o.result.value == []))
  {
    var call := Call(DispatchMethod, startDate, endDate, w, 1);
    CallResult(DispatchMethod, startDate, endDate, w, 1);
    if call.result.Ok? && call.result.value.JObject? {
      var dispatches := DictEntries(GetOr(call.result.value.obj, "Items", JArray([])));
      if dispatches.Ok? {
        MapResultsPointwise(dispatches.value, d => Reformat(d, b));
      }
    }
  }
}
