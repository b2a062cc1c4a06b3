# Droptime dispatch client, modelled in Dafny

This project models the core of the Droptime API client `dt_api.py`. The client
has three parts:

- a configuration file that must hold six credential fields;
- a session manager that asks the vendor for a new session and writes the new
  credentials back into that file;
- an API call that re-authenticates and retries while the vendor reports a
  rejected session.

On top of these sits `get_data`. It fetches the dispatches of a date range and
flattens each one with `reformat_dispatch` into a dictionary of display fields.

The project has four modules:

- `Py` (py.dfy): the slice of Python the client relies on. This covers JSON/YAML
  values, the exceptions raised, the `in` operator on dicts, strings and lists,
  truthiness, `str()`, `str.strip`, `str.join`, and a list comprehension that
  stops at the first exception.
- `Config` (config.dfy): the required fields, the `load_config` check, and the
  merge loop of `update_config_file`.
- `Api` (api.dfy): the session refresh and `make_api_call`. Everything outside
  the process is a `World` value threaded through every operation. It holds the
  configuration file as parsed, the replies the endpoint will give in order, and
  the log of requests sent with the replies they got. Each operation is a
  specification function (`Refresh`, `Call`/`Answer`/`Retry`) plus a method
  written step by step like the source (`GetOrRefreshSession`, `MakeApiCall`).
  Each method is proved equal to its function.
- `Dispatch` (dispatch.dfy): `reformat_dispatch` and `get_data`. Each of the
  loops of `reformat_dispatch` is a method with its invariants: the initial keys,
  the fields, the line items (per item and per attribute), and the join. These
  methods are composed in `ReformatDispatch`, which is proved equal to the
  specification function `Reformat`.

Several behaviours of `dt_api.py` are easy to misread. The model follows the code:

- `get_or_refresh_session` always fetches a new session (dt_api.py:110-114). It
  never reuses the credentials already in the file, although its docstring
  (dt_api.py:102) says it may use existing session details.
- `make_api_call` retries only while `attempt <= 2` (dt_api.py:151-157). Starting
  from attempt 1, it sends up to three data requests with two refreshes. The
  third reply is returned (dt_api.py:159) even when it still rejects the
  session, so no error is raised for a session that stays rejected. The
  docstring (dt_api.py:121-122) speaks only of fetching a new session and retrying.
- The line items are not kept as a list of records (dt_api.py:231-252). Each
  attribute is collected over all items and joined with `"; "`, and job texts
  are deduplicated (dt_api.py:243-246).
- Dates are sent to the vendor as given (dt_api.py:138). The code converts no dates.
- `load_config` requires all six fields of `REQUIRED_FIELDS` (dt_api.py:31-38,
  53-54), including `SessionID` and `SessionPassword`.
- A dispatch whose `fields` is a non-empty dictionary fails with AttributeError
  (dt_api.py:216-217, `FieldsAsDictionaryFail`).

## Model

| member | source | states |
|---|---|---|
| Py.Get | dt_api.py:216-218 | `dict.get(key)` gives the value of a present key and None for an absent one |
| Py.GetOr | dt_api.py:204-207 | `dict.get(key, default)` gives the value of a present key and the default for an absent one; its uses are stated in Dispatch.ReformatResult, Dispatch.PlainDispatch and Dispatch.GetDataResult |
| Py.IsInfix | dt_api.py:53 | definition of the substring test of `in` on a string; its use is stated in Py.Contains and Config.LoadConfigAccepts |
| Py.Contains | dt_api.py:53 | Python's `in` for a string key: a key test on a dict, a substring test on a string (`IsInfix`), an element test on a list, and TypeError exactly for None, booleans and numbers |
| Py.Str | dt_api.py:248 | `str()` of a string is the string itself and of None is "None"; booleans render as "True"/"False", and other values through `Builtins.show` |
| Py.Truthy | dt_api.py:218-227 | definition of Python truthiness, used by `itemdesc or itemvalue` and `if catname`; its effect is stated in Dispatch.ApplyFieldsLastWins |
| Py.IsSpace | dt_api.py:244 | definition of the characters `str.strip()` removes without an argument; its properties are in Dispatch.JobText and Dispatch.JobTexts |
| Py.Strip | dt_api.py:244 | `str.strip(chars)` returns a contiguous slice of its input. Everything cut off before and after it is a dropped character, and the slice neither starts nor ends with one |
| Py.Dedup | dt_api.py:245-246 | the list built by "append if not already present" has no duplicates and the same elements as its input |
| Py.DedupKeepsFirstOccurrences | dt_api.py:245-246 | the deduplicated list keeps elements in the order of their first occurrence in the input |
| Py.MapResultsPointwise | dt_api.py:179 | the comprehension yields one result per element, in order; it fails exactly when some element fails, with the error of the first that does |
| Py.MapResultsStops | dt_api.py:179 | once an element raises, every longer prefix of the comprehension raises the same error |
| Py.MapResults | dt_api.py:179 | definition of a comprehension evaluated left to right that stops at the first exception; its properties are in Py.MapResultsPointwise and Py.MapResultsStops |
| Py.Join | dt_api.py:251-252 | definition of `sep.join`; its use is stated in Dispatch.SetColumnsPointwise and Dispatch.ReformatResult |
| Py.UpdatePair | dt_api.py:112 | definition of one element of a list given to `dict.update`; its properties are in Py.UpdateEntriesOfList |
| Py.PairsToMap | dt_api.py:112 | definition of the dict `dict.update` builds from pairs; its properties are in Py.PairsToMapKeys and Py.PairsToMapLastWins |
| Py.PairsToMapKeys | dt_api.py:112 | the dictionary built from pairs has exactly the keys of the pairs |
| Py.PairsToMapLastWins | dt_api.py:112 | a key gets the value of the last pair holding it |
| Py.UpdateEntries | dt_api.py:112 | what `dict.update(v)` adds: a dict's entries; nothing for an empty string; ValueError for a non-empty string; TypeError for None, booleans and numbers |
| Py.UpdateEntriesOfList | dt_api.py:112 | `dict.update` with a list succeeds exactly when every element is a pair, and otherwise raises the error of the first bad element; it adds exactly the pairs' keys, each with the value of the last pair holding it |
| Config.AllPresentMeans | dt_api.py:53 | on a document that supports `in`, the short-circuit `all(...)` equals the plain conjunction over the fields |
| Config.AllPresent | dt_api.py:53 | definition of the short-circuit `all(...)`; its properties are in Config.AllPresentMeans |
| Config.HasRequiredFieldsMeans | dt_api.py:31-38 | the six explicit membership tests say exactly that every required field is a key |
| Config.HasRequiredFields | dt_api.py:31-38 | definition of the six membership tests; its properties are in Config.HasRequiredFieldsMeans and Config.LoadConfigAccepts |
| Config.LoadConfigAccepts | dt_api.py:53-54 | a dict passes exactly when it holds all six fields; a string or list passes exactly when each field name is a substring or element of it; a passing document is returned unchanged; a failing one raises ValueError, or TypeError when it is None, a boolean or a number |
| Config.LoadConfig | dt_api.py:53-54 | definition of the `load_config` check; its properties are in Config.LoadConfigAccepts |
| Config.ConfigMap | dt_api.py:134-137 | the configuration can be used as a dict exactly when it is a dict holding all required fields, and is then that dict |
| Config.ConfigMapFollowsLoadConfig | dt_api.py:134-137 | using the configuration fails with the error of `load_config`, or with TypeError for a string or list that passed the check |
| Config.ConfigError | dt_api.py:53-54 | definition of the error of an unusable configuration; its properties are in Config.ConfigMapFollowsLoadConfig |
| Config.OverwriteFirst | dt_api.py:92-94 | definition of the first iterations of the merge loop; its properties are in Config.OverwriteFirstPointwise |
| Config.OverwriteFirstPointwise | dt_api.py:92-94 | after the first iterations, exactly the fields handled so far that the updates hold are set, with their values, and every other key keeps its value |
| Config.Overwrite | dt_api.py:92-94 | definition of the whole merge loop; its properties are in Config.OverwritePointwise and Config.OverwriteIsUnion |
| Config.OverwritePointwise | dt_api.py:92-94 | the merge adds or replaces exactly the required fields that the updates hold, with their values there, and keeps every other key and value |
| Config.OverwriteIsUnion | dt_api.py:92-94 | the merge is the union of the configuration with the required part of the updates, the updates winning |
| Config.UpdateConfigFile | dt_api.py:92-94 | the merge loop on a dict gives the merged dict; on any other document it raises TypeError exactly when some required field is to be written, and otherwise leaves it unchanged |
| Config.OverwriteKeepsConfigValid | dt_api.py:92-94 | writing fields back never removes a required field, so a valid configuration stays valid |
| Api.HttpGet | dt_api.py:146-148 | a request returns the body of the next scripted reply when that reply is JSON, and RequestError when it failed or the replies are exhausted; it consumes that reply, logs itself with it, and leaves the file alone |
| Api.SessionParamsContents | dt_api.py:63-64 | the authentication request holds exactly the required fields the configuration holds, with its values, plus the method `StartAPISession` |
| Api.SessionParams | dt_api.py:63-64 | definition of the authentication parameters; its properties are in Api.SessionParamsContents |
| Api.ApiParamsKeys | dt_api.py:137-143 | the data request holds exactly the required fields present, the method, the start and end time, and "SP" exactly when both session fields are present |
| Api.ApiParamsValues | dt_api.py:137-143 | the data request carries the method and the dates as given, each required field with the configuration's value, and the session password under "SP" |
| Api.ApiParams | dt_api.py:137-143 | definition of the data-request parameters; its properties are in Api.ApiParamsKeys and Api.ApiParamsValues |
| Api.FetchNewSession | dt_api.py:62-72 | fetching a session sends exactly one authentication request built from the configuration. A failed request raises its error; a dict reply gives its "SessionInformation", or ValueError when it has none; a reply that is not a dict raises |
| Api.Refresh | dt_api.py:110-114 | a refresh only appends to the request log, at most one request; its other properties are in Api.RefreshEffect |
| Api.GetOrRefreshSession | dt_api.py:110-114 | the step-by-step refresh returns the same result and leaves the same world as the specification `Refresh` |
| Api.OverwriteMerged | dt_api.py:112-113 | writing back the required fields of `config` updated with the session information writes exactly the required fields of the session information |
| Api.RefreshEffect | dt_api.py:110-114 | a refresh sends at most one request, the authentication request of the configuration. On failure the file is unchanged. On success the reply held a dict with "SessionInformation", `dict.update` accepted that information, the result is the configuration updated with it, and the file gets the required fields of the update |
| Api.RefreshSendsAuth | dt_api.py:110-114 | a refresh sends no data request and at most one authentication request, exactly one when it succeeds |
| Api.RefreshWritesOnlyRequired | dt_api.py:110-114 | a failed refresh leaves the file unchanged; a successful one changes only required fields and removes no key |
| Api.SessionRejected | dt_api.py:151 | definition of the rejection test `data.get("ErrorCode") == "1"`; it is used in Api.Answer and stated in Api.CallResult |
| Api.DataRequestSent | dt_api.py:146-148 | the request a call sends is one data request carrying the method and the date range, and its reply is what the call receives |
| Api.Call | dt_api.py:134-163 | a call only appends to the request log |
| Api.Answer | dt_api.py:151-159 | handling a reply, including any retry, only appends to the request log |
| Api.Retry | dt_api.py:151-157 | the refresh-and-call-again step only appends to the request log |
| Api.MakeApiCall | dt_api.py:134-163 | the step-by-step call, with the parameter loop and the recursive retry, returns the same result and leaves the same world as the specification `Call` |
| Api.CallRequestBound | dt_api.py:151-157 | from any attempt number, a call sends at most `4 - attempt` data requests (one once past 2) and fewer authentication requests than that |
| Api.AnswerRequestBound | dt_api.py:151-159 | after its first data request, a call sends fewer than `MaxRequests(attempt)` further data requests and authentication requests |
| Api.RetryRequestBound | dt_api.py:151-157 | a retry sends one authentication request followed by a call with the next attempt number, within the same bound |
| Api.MakeApiCallBound | dt_api.py:117-163 | `make_api_call` with the default `attempt=1` sends at most three data requests and at most two authentication requests |
| Api.CallResult | dt_api.py:151-159 | a successful call returns the body of the last reply, received for a data request; that body is a dict; one more data request than authentication requests was sent; the body rejects the session only when no retry was left |
| Api.AnswerResult | dt_api.py:151-159 | a successful answer returns the last reply of a data request as a dict, after as many further data requests as authentication requests |
| Api.RetryResult | dt_api.py:151-157 | a successful retry ends with a data request whose reply is the dict returned, after as many data requests as authentication requests |
| Api.CallParams | dt_api.py:137-148 | every data request sent during a call, retries included, carries the method and the date range the call was given |
| Api.AnswerParams | dt_api.py:151-157 | every data request sent while handling a reply carries the method and the date range |
| Api.RetryParams | dt_api.py:155-157 | every data request sent by a retry carries the method and the date range |
| Api.CallWritesOnlyRequiredFields | dt_api.py:134-163 | whatever happens during a call, the file keeps every key it had and changes or gains only required fields |
| Api.AnswerWritesOnlyRequiredFields | dt_api.py:151-157 | handling a reply writes only required fields to the file |
| Api.RetryWritesOnlyRequiredFields | dt_api.py:155-157 | a retry writes only required fields to the file |
| Api.AcceptedReplyReturnedAtOnce | dt_api.py:151-159 | a reply that does not reject the session is returned after a single request, and the file is not touched |
| Api.CallSends | dt_api.py:134-148 | on a usable configuration, a call first sends the data request built from it |
| Api.RefreshGranted | dt_api.py:110-114 | a granted session yields the configuration updated with the session information, writes its required fields to the file, and logs one authentication request |
| Api.SessionInformationNotADict | dt_api.py:110-114 | session information given as a string or an empty list goes through `dict.update`: an empty one leaves configuration and file as they were and the refresh succeeds; a non-empty string raises ValueError and leaves the file alone |
| Api.RetrySucceedsAfterOneRefresh | dt_api.py:151-159 | a rejected session is refreshed once and the call repeated with the new credentials; the second reply is returned; the retried request sends the new session password |
| Api.ThirdRejectionReturned | dt_api.py:151-159 | when every data reply rejects the session, the third is returned as a success after five requests |
| Dispatch.CopyKeysPointwise | dt_api.py:204 | the comprehension copies exactly the listed keys the dispatch holds, with their values |
| Dispatch.CopyKeys | dt_api.py:204 | definition of the initial-keys comprehension; its properties are in Dispatch.CopyKeysPointwise |
| Dispatch.CrewName | dt_api.py:207-213 | definition of the crew line; its properties are in Dispatch.BaseContents |
| Dispatch.Base | dt_api.py:204-213 | definition of the result before the fields; its properties are in Dispatch.BaseContents |
| Dispatch.BaseContents | dt_api.py:195-213 | before the fields, the result holds the initial keys the dispatch has with their values, and "crew" exactly when the crew is a dict with first and last name, as the two names separated by a space |
| Dispatch.InitialFields | dt_api.py:195-213 | the loop over the initial keys followed by the crew step yields `Base` |
| Dispatch.DictEntries | dt_api.py:216 | looping over a list sees its elements; an empty string or dict gives nothing; a non-empty string or dict fails with AttributeError at the first `.get`; any other value fails with TypeError |
| Dispatch.FieldsAsDictionaryFail | dt_api.py:216-217 | a dispatch whose "fields" is a non-empty dict fails with AttributeError |
| Dispatch.ItemDescsMeans | dt_api.py:223 | the comprehension fails exactly when some item supports no `in`, or is a non-dict that "contains" `itemdesc`; otherwise it collects the `itemdesc` of every dict item holding one, and no more than there are items |
| Dispatch.ItemDescs | dt_api.py:223 | definition of the `itemdesc` comprehension; its properties are in Dispatch.ItemDescsMeans |
| Dispatch.BadDescItem | dt_api.py:223 | definition of an item the comprehension cannot get past; its properties are in Dispatch.ItemDescsMeans and Dispatch.ItemDescsOne |
| Dispatch.ItemDescsAppend | dt_api.py:223 | the comprehension over two runs of items is that of the first followed by that of the second, so the descriptions keep item order; it fails exactly when a run fails, with the error of the first run that does |
| Dispatch.ItemDescsOne | dt_api.py:223 | one item adds its "itemdesc" when it is a dict holding one, nothing when it is a dict without one or any other item the comprehension can get past, and fails exactly when it is a bad item |
| Dispatch.Texts | dt_api.py:222 | the texts handed to `"; ".join`: available exactly when every value is a string, and then exactly those strings, in order; otherwise TypeError |
| Dispatch.JoinValues | dt_api.py:222-224 | definition of `"; ".join` on values; it joins the texts of Dispatch.Texts and raises its TypeError |
| Dispatch.FieldValue | dt_api.py:218-224 | definition of `itemdesc or itemvalue`, a list being joined from its items' descriptions; its effect is stated in Dispatch.ApplyFieldsLastWins |
| Dispatch.FieldStep | dt_api.py:216-228 | definition of one iteration of the fields loop; its properties are in Dispatch.ApplyFieldsLastWins |
| Dispatch.ApplyFields | dt_api.py:216-228 | definition of the fields loop; its properties are in Dispatch.ApplyFieldsLastWins |
| Dispatch.ApplyFieldsLastWins | dt_api.py:216-228 | after the fields loop, each key holds the value of the last field naming it with a non-None value, and keys no field names keep their earlier value |
| Dispatch.ApplyFieldList | dt_api.py:216-228 | the step-by-step fields loop gives the same result or the same error as `ApplyFields` |
| Dispatch.JobText | dt_api.py:244 | a job text has no leading or trailing whitespace |
| Dispatch.Text | dt_api.py:243-248 | definition of the text collected for an attribute; its properties are in Dispatch.JobText and Dispatch.JobTexts |
| Dispatch.LineItemEntries | dt_api.py:240 | definition of what the loop over the line items sees; its effect is stated in Dispatch.ReformatResult and Dispatch.DictionaryItemsNeverFail |
| Dispatch.Readable | dt_api.py:242 | definition of an item on which `key in item and item[key] is not None` can be evaluated; its properties are in Dispatch.AddAttribute and Dispatch.AddLineItem |
| Dispatch.BadLineItem | dt_api.py:241-242 | definition of an item that raises TypeError for some attribute; its properties are in Dispatch.AddLineItem and Dispatch.CollectLineItems |
| Dispatch.Gather | dt_api.py:242-248 | definition of one item's contribution to an attribute's list; its properties are in Dispatch.AttrIsColumn |
| Dispatch.Attr | dt_api.py:240-248 | definition of the list collected for an attribute; its properties are in Dispatch.AttrIsColumn and Dispatch.JobsDistinct |
| Dispatch.Column | dt_api.py:240-248 | definition of the texts of an attribute over the items; its properties are in Dispatch.ColumnSound, Dispatch.ColumnComplete and Dispatch.ColumnElements |
| Dispatch.Holds | dt_api.py:242 | definition of `key in item and item[key] is not None` on a dict item; its properties are in Dispatch.ColumnSound and Dispatch.ColumnComplete |
| Dispatch.Cell | dt_api.py:242-248 | definition of the text one item adds for an attribute, the step from which Dispatch.Column is built; its properties are in Dispatch.ColumnSound and Dispatch.ColumnComplete |
| Dispatch.AttrIsColumn | dt_api.py:240-248 | the list collected for an attribute is the `str()` texts of the items holding it with a non-None value, in item order; for "job" it is that column without repeats |
| Dispatch.ColumnSound | dt_api.py:240-248 | every entry of an attribute's column is the text of some item holding the attribute with a non-None value |
| Dispatch.ColumnComplete | dt_api.py:240-248 | the text of every item holding the attribute with a non-None value is in the column |
| Dispatch.ColumnElements | dt_api.py:240-248 | a column holds exactly the texts of the items that hold the attribute, and no more entries than there are items |
| Dispatch.ColumnAppend | dt_api.py:240-248 | the column of a concatenation of items is the concatenation of the columns |
| Dispatch.JobsDistinct | dt_api.py:243-246 | the job list holds every job text once, in order of first occurrence, each with no surrounding whitespace |
| Dispatch.JobTexts | dt_api.py:243-246 | the job column holds exactly the stripped job texts of the items, none with leading or trailing whitespace |
| Dispatch.AddAttribute | dt_api.py:242-248 | one attribute of one item: TypeError exactly when the item cannot be read for it; otherwise its text is appended (a job text only if new) |
| Dispatch.AddLineItem | dt_api.py:241-248 | one line item: TypeError exactly when the item cannot be read for some attribute; otherwise every attribute list grows to its value over the items so far |
| Dispatch.CollectLineItems | dt_api.py:240-248 | the loop over the line items fails with TypeError exactly when some item cannot be read; otherwise each attribute holds its collected list |
| Dispatch.SetColumnsPointwise | dt_api.py:251-252 | after the join loop, every attribute holds the `"; "`-join of its list, and all other keys are unchanged |
| Dispatch.SetColumns | dt_api.py:251-252 | definition of the join loop; its properties are in Dispatch.SetColumnsPointwise |
| Dispatch.SetColumnsHas | dt_api.py:251-252 | each attribute handled so far holds the `"; "`-join of its list |
| Dispatch.Tonnage | dt_api.py:255-266 | definition of "Material Tonnage" as `Builtins.tonnage` of the joined quantities |
| Dispatch.Finish | dt_api.py:251-266 | definition of the join loop followed by the tonnage; its properties are in Dispatch.ReformatResult |
| Dispatch.JoinAttributes | dt_api.py:251-266 | the join loop and the tonnage step give `Finish` of the collected lists |
| Dispatch.ReformatDispatch | dt_api.py:182-268 | `reformat_dispatch`, loop by loop, returns the same result or error as the specification `Reformat` |
| Dispatch.Reformat | dt_api.py:182-268 | definition of `reformat_dispatch`; its properties are in Dispatch.ReformatResult, Dispatch.PlainDispatch, Dispatch.FieldsAsDictionaryFail and Dispatch.DictionaryItemsNeverFail |
| Dispatch.ReformatResult | dt_api.py:182-268 | a reformatted dispatch holds every line-item attribute as the `"; "`-join of its list and the tonnage of the joined quantities; every other key holds the value of the last field naming it, or its initial value |
| Dispatch.PlainDispatch | dt_api.py:216-266 | a dispatch whose fields and line items are absent or empty lists never fails; every attribute is the empty string, and the result has no other keys than the initial ones, the attributes and the tonnage |
| Dispatch.DictionaryItemsNeverFail | dt_api.py:240-248 | line items that are all dicts never make the reformatting fail |
| Dispatch.GetData | dt_api.py:178-179 | `get_data`, with its loop over the dispatches, returns the same result and leaves the same world as `FetchDispatches` |
| Dispatch.ReformatAll | dt_api.py:179 | definition of the comprehension over the dispatches; its properties are in Dispatch.GetDataResult |
| Dispatch.ReformatReply | dt_api.py:179 | definition of `data.get("Items", [])` reformatted; its properties are in Dispatch.GetDataResult |
| Dispatch.FetchDispatches | dt_api.py:178-179 | definition of `get_data`; its properties are in Dispatch.GetDataResult |
| Dispatch.GetDataResult | dt_api.py:178-179 | a successful `get_data` returns one reformatted dispatch per entry of the "Items" of the last data reply, in order, and an empty list when "Items" is absent |

## Left out

- File and YAML I/O: the configuration file is a parsed value in the `World`. `yaml.safe_load`, ruamel's preservation of quotes and formatting, and a missing or unreadable file are not modelled.
- HTTP: the endpoint is a scripted list of replies. A connection error, an HTTP error status and a body that is not JSON are one `Failed` reply, raised as RequestError. An exhausted script counts as a transport failure.
- Printing and logging (`print` in `fetch_new_session` and `make_api_call`) have no effect on results and are left out.
- `str()` of numbers, lists and dicts is a parameter (`Builtins.show`). Only strings, None and booleans are rendered by the model itself.
- The float parsing and summing of quantities for "Material Tonnage", including the fallback to 0 on a ValueError, is a parameter (`Builtins.tonnage`) applied to the joined quantity text.
- Numbers are exact reals, and float rounding is not modelled. JSON `263` and `263.0` both become `JNum(263.0)`, but Python's `str()` at dt_api.py:248 renders them as "263" and "263.0". No single `Builtins.show` can produce both, so the model cannot tell an integer from a float of the same value.
- Dispatch.FieldStep: a truthy number or boolean used as a field name is a valid Python dict key, but the model's result has string keys, so this case is reported as the error NonStringKey.
- Py.UpdatePair: a list element given to `dict.update` that is a dict with two keys yields those keys in insertion order, which `Value` does not keep, so it is reported as the error Unordered. A pair whose key is None, a number or a boolean is valid in Python but not a string key, and is reported as NonStringKey.
- Dict insertion order: results are maps, so the key order of the reformatted dispatch and of the written file is not captured.
- Iterating over a dict or string as "fields", "Items" or "lineitems" is modelled by its outcome, which does not depend on iteration order, not element by element.
- `summarize_results`, the command-line entry point and argument parsing are outside this model.
