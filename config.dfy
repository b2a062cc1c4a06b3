/** The YAML configuration: the six required fields, the load-time check that
    they are all present, and the merge that writes selected fields back. */
module Config {
  import opened Py

  /** The fields a configuration must hold; also the only fields ever written back. */
  const RequiredFields: seq<string> :=
    ["CompanyID", "Manager", "Passcode", "SessionID", "SessionPassword", "UserName"]

  /** `all(field in doc for field in fields)`, evaluated left to right with
      Python's `in`: it stops at the first absent field, and raises on a
      document that supports no `in` at all. */
  function AllPresent(doc: Value, fields: seq<string>): (r: Result<bool>)
  {
    if fields == [] then Ok(true)
    else
      match Contains(doc, fields[0])
      case Err(e) => Err(e)
      case Ok(present) => if present then AllPresent(doc, fields[1..]) else Ok(false)
  }

  /** On a document that supports `in`, the evaluation is the plain conjunction. */
  lemma {:induction false} AllPresentMeans(doc: Value, fields: seq<string>)
    requires doc.JObject? || doc.JStr? || doc.JArray?
    ensures AllPresent(doc, fields) == Ok(forall f | f in fields :: Contains(doc, f) == Ok(true))
  {
    if fields != [] {
      AllPresentMeans(doc, fields[1..]);
      assert forall f :: f in fields <==> f == fields[0] || f in fields[1..];
    }
  }

  /** Every required field is a key of `m`. */
  predicate HasRequiredFields(m: map<string, Value>) {
    && "CompanyID" in m && "Manager" in m && "Passcode" in m
    && "SessionID" in m && "SessionPassword" in m && "UserName" in m
  }

  lemma HasRequiredFieldsMeans(m: map<string, Value>)
    ensures HasRequiredFields(m) <==> forall f :: f in RequiredFields ==> f in m
  {
  }

  /** The check `load_config` applies to the parsed document. */
  function LoadConfig(doc: Value): (r: Result<Value>)
  {
    match AllPresent(doc, RequiredFields)
    case Err(e) => Err(e)
    case Ok(all) => if all then Ok(doc) else Err(ValueError)
  }

  /** `load_config` accepts a dictionary exactly when it holds all six required
      fields, returns the document unchanged, and otherwise raises ValueError; a
      document that is None, a boolean or a number raises TypeError. A string or
      a list passes when every field name is a substring or an element of it. */
  lemma LoadConfigAccepts(doc: Value)
    ensures doc.JObject? ==> (LoadConfig(doc).Ok? <==> HasRequiredFields(doc.obj))
    ensures doc.JObject? ==> (LoadConfig(doc).Ok? <==> forall f :: f in RequiredFields ==> f in doc.obj)
    ensures doc.JStr? ==> (LoadConfig(doc).Ok? <==> forall f :: f in RequiredFields ==> IsInfix(f, doc.s))
    ensures doc.JArray? ==> (LoadConfig(doc).Ok? <==> forall f :: f in RequiredFields ==> JStr(f) in doc.items)
    ensures LoadConfig(doc).Ok? ==> LoadConfig(doc).value == doc
    ensures LoadConfig(doc).Err? ==>
      LoadConfig(doc).error == if doc.JNull? || doc.JBool? || doc.JNum? then TypeError else ValueError
  {
    if doc.JObject? || doc.JStr? || doc.JArray? {
      AllPresentMeans(doc, RequiredFields);
    }
    if doc.JObject? {
      HasRequiredFieldsMeans(doc.obj);
    }
  }

  /** The configuration as a dictionary. A document that passed `LoadConfig` without
      being a dictionary (a string or list that contains every field name) fails
      with TypeError at the first `config[key]` the client evaluates. */
  function ConfigMap(doc: Value): (r: Result<map<string, Value>>)
    ensures r.Ok? <==> doc.JObject? && HasRequiredFields(doc.obj)
    ensures r.Ok? ==> r.value == doc.obj
  {
    if doc.JObject? && HasRequiredFields(doc.obj) then Ok(doc.obj)
    else Err(ConfigError(doc))
  }

  /** The error a rejected or unusable configuration document raises: that of
      the check, and TypeError for a string or list that passed it. */
  function ConfigError(doc: Value): (r: PyError)
  {
    if LoadConfig(doc).Err? then LoadConfig(doc).error else TypeError
  }

  /** `ConfigMap` fails with the error of `LoadConfig` when that fails, and with
      TypeError for a document that passed it without being a dictionary. */
  lemma ConfigMapFollowsLoadConfig(doc: Value)
    ensures LoadConfig(doc).Err? ==> ConfigMap(doc) == Err(LoadConfig(doc).error)
    ensures LoadConfig(doc).Ok? ==> ConfigMap(doc) == if doc.JObject? then Ok(doc.obj) else Err(TypeError)
  {
    LoadConfigAccepts(doc);
  }

  /** The configuration after the first `n` iterations of the merge loop, which
      sets `config[field] = updates[field]` for each required field in turn that
      `updates` holds. */
  function OverwriteFirst(config: map<string, Value>, updates: map<string, Value>, n: nat): (r: map<string, Value>)
    requires n <= |RequiredFields|
  {
    if n == 0 then config
    else
      var c := OverwriteFirst(config, updates, n - 1);
      var field := RequiredFields[n - 1];
      if field in updates then c[field := updates[field]] else c
  }

  /** The configuration after the whole merge loop. */
  function Overwrite(config: map<string, Value>, updates: map<string, Value>): (r: map<string, Value>)
  {
    OverwriteFirst(config, updates, |RequiredFields|)
  }

  lemma {:induction false} OverwriteFirstPointwise(config: map<string, Value>, updates: map<string, Value>, n: nat)
    requires n <= |RequiredFields|
    ensures forall k :: k in OverwriteFirst(config, updates, n) <==> k in config || (k in RequiredFields[..n] && k in updates)
    ensures forall k :: k in RequiredFields[..n] && k in updates ==> OverwriteFirst(config, updates, n)[k] == updates[k]
    ensures forall k :: k in config && !(k in RequiredFields[..n] && k in updates) ==> OverwriteFirst(config, updates, n)[k] == config[k]
  {
    if n > 0 {
      OverwriteFirstPointwise(config, updates, n - 1);
      var fields := RequiredFields[..n];
      assert fields == RequiredFields[..n - 1] + [RequiredFields[n - 1]];
      assert forall k :: k in fields <==> k in RequiredFields[..n - 1] || k == RequiredFields[n - 1];
    }
  }

  /** The merge adds or replaces exactly the required fields that `updates`
      holds, with their values there, and keeps every other key and value. */
  lemma OverwritePointwise(config: map<string, Value>, updates: map<string, Value>)
    ensures var r := Overwrite(config, updates);
      && (forall k :: k in r <==> k in config || (k in RequiredFields && k in updates))
      && (forall k :: k in RequiredFields && k in updates ==> r[k] == updates[k])
      && (forall k :: k in config && !(k in RequiredFields && k in updates) ==> r[k] == config[k])
  {
    OverwriteFirstPointwise(config, updates, |RequiredFields|);
    assert RequiredFields[..|RequiredFields|] == RequiredFields;
  }

  /** The merge is the union of the configuration with the required part of the
      updates, later values winning. */
  lemma OverwriteIsUnion(config: map<string, Value>, updates: map<string, Value>)
    ensures Overwrite(config, updates) == config + map k | k in RequiredFields && k in updates :: updates[k]
  {
    OverwritePointwise(config, updates);
  }

  /** The merge step of `update_config_file` on the reloaded document `file`:
      the loop over the required fields and the item assignments it makes.
      Assigning into a document that is not a dictionary raises TypeError. */
  method UpdateConfigFile(file: Value, updates: map<string, Value>) returns (r: Result<Value>)
    ensures file.JObject? ==> r == Ok(JObject(Overwrite(file.obj, updates)))
    ensures !file.JObject? ==>
      r == if exists k :: k in RequiredFields && k in updates then Err(TypeError) else Ok(file)
  {
    var config := file;
    var i := 0;
    while i < |RequiredFields|
      invariant 0 <= i <= |RequiredFields|
      invariant file.JObject? ==> config == JObject(OverwriteFirst(file.obj, updates, i))
      invariant !file.JObject? ==> config == file
      invariant !file.JObject? ==> forall j :: 0 <= j < i ==> RequiredFields[j] !in updates
    {
      var field := RequiredFields[i];
      if field in updates {
        if !config.JObject? {
          return Err(TypeError);
        }
        config := JObject(config.obj[field := updates[field]]);
      }
      i := i + 1;
    }
    return Ok(config);
  }

  /** A merge keeps every required field the configuration had: a configuration
      that passed the check still passes it after being overwritten. */
  lemma OverwriteKeepsConfigValid(config: map<string, Value>, updates: map<string, Value>)
    requires HasRequiredFields(config)
    ensures HasRequiredFields(Overwrite(config, updates))
    ensures ConfigMap(JObject(Overwrite(config, updates))) == Ok(Overwrite(config, updates))
  {
    OverwritePointwise(config, updates);
  }
}
