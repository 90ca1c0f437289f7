/**
 * The destination-suggestion half of `DestinationRepository.GetDestinationSuggestionsAsync`:
 * the completion-suggester payload it posts, and how it reads the reply. Sending the request
 * is not modelled; the reply is a parameter, and so is the JSON text parser.
 */
module DestinationSuggestions {
  import opened Wrappers
  import opened Primitives
  import opened Json
  import Text

  /** Follows a path of member names from `j`, as long as each step is an object that has the member. */
  function At(j: Json, path: seq<string>): Option<Json>
    decreases |path|
  {
    if path == [] then Some(j)
    else if j.JObject? && Get(j.members, path[0]).Some? then At(Get(j.members, path[0]).value, path[1..])
    else None
  }

  /** One step along a path: the member `name` of an object, then the rest of the path. */
  lemma AtStep(j: Json, name: string, rest: seq<string>)
    requires j.JObject? && Get(j.members, name).Some?
    ensures At(j, [name] + rest) == At(Get(j.members, name).value, rest)
  {
    assert ([name] + rest)[1..] == rest;
  }

  /** The request body: no hits, one completion suggester "destination_suggest" on the "name" field. */
  function Payload(query: string, limit: Int32): Json
  {
    JObject([("size", Num(0)), ("suggest", JObject([("destination_suggest", Suggester(query, limit))]))])
  }

  function Suggester(query: string, limit: Int32): Json
  {
    JObject([("prefix", JString(query)), ("completion", Completion(limit))])
  }

  function Completion(limit: Int32): Json
  {
    JObject([("field", JString("name")), ("skip_duplicates", JBool(true)), ("size", Num(limit))])
  }

  lemma CompletionShape(limit: Int32)
    ensures At(Completion(limit), ["field"]) == Some(JString("name"))
    ensures At(Completion(limit), ["skip_duplicates"]) == Some(JBool(true))
    ensures At(Completion(limit), ["size"]) == Some(Num(limit))
  {
    var c := Completion(limit);
    GetAt(c.members, 0);
    GetAt(c.members, 1);
    GetAt(c.members, 2);
    AtStep(c, "field", []);
    AtStep(c, "skip_duplicates", []);
    AtStep(c, "size", []);
  }

  lemma SuggesterShape(query: string, limit: Int32, field: string)
    requires field in ["field", "skip_duplicates", "size"]
    ensures At(Suggester(query, limit), ["prefix"]) == Some(JString(query))
    ensures At(Suggester(query, limit), ["completion", field]) == At(Completion(limit), [field])
  {
    var s := Suggester(query, limit);
    GetAt(s.members, 0);
    GetAt(s.members, 1);
    AtStep(s, "prefix", []);
    AtStep(s, "completion", [field]);
  }

  lemma PayloadStep(query: string, limit: Int32, rest: seq<string>)
    ensures At(Payload(query, limit), ["size"]) == Some(Num(0))
    ensures At(Payload(query, limit), ["suggest", "destination_suggest"] + rest) == At(Suggester(query, limit), rest)
  {
    var p := Payload(query, limit);
    var sg := JObject([("destination_suggest", Suggester(query, limit))]);
    GetAt(p.members, 0);
    GetAt(p.members, 1);
    AtStep(p, "size", []);
    assert ["suggest", "destination_suggest"] + rest == ["suggest"] + (["destination_suggest"] + rest);
    AtStep(p, "suggest", ["destination_suggest"] + rest);
    GetAt(sg.members, 0);
    AtStep(sg, "destination_suggest", rest);
  }

  /** The completion settings the payload asks for, by setting name. */
  lemma PayloadCompletion(query: string, limit: Int32, setting: string)
    requires setting in ["field", "skip_duplicates", "size"]
    ensures At(Payload(query, limit), ["suggest", "destination_suggest", "completion", setting])
         == At(Completion(limit), [setting])
  {
    SuggesterShape(query, limit, setting);
    PayloadStep(query, limit, ["completion", setting]);
    assert ["suggest", "destination_suggest"] + ["completion", setting]
        == ["suggest", "destination_suggest", "completion", setting];
  }

  /**
   * The payload asks for no hits and for one suggester, "destination_suggest", completing
   * `query` on the "name" field with duplicates skipped and at most `limit` options.
   */
  lemma PayloadShape(query: string, limit: Int32)
    ensures At(Payload(query, limit), ["size"]) == Some(Num(0))
    ensures At(Payload(query, limit), ["suggest", "destination_suggest", "prefix"]) == Some(JString(query))
    ensures At(Payload(query, limit), ["suggest", "destination_suggest", "completion", "field"]) == Some(JString("name"))
    ensures At(Payload(query, limit), ["suggest", "destination_suggest", "completion", "skip_duplicates"])
         == Some(JBool(true))
    ensures At(Payload(query, limit), ["suggest", "destination_suggest", "completion", "size"]) == Some(Num(limit))
  {
    CompletionShape(limit);
    PayloadStep(query, limit, ["prefix"]);
    SuggesterShape(query, limit, "field");
    assert ["suggest", "destination_suggest"] + ["prefix"] == ["suggest", "destination_suggest", "prefix"];
    PayloadCompletion(query, limit, "field");
    PayloadCompletion(query, limit, "skip_duplicates");
    PayloadCompletion(query, limit, "size");
  }

  /** The HTTP reply: its status code, the status as `HttpStatusCode` renders it, and the body text. */
  datatype Reply = Reply(statusCode: int, statusName: string, content: string)

  predicate IsSuccessStatusCode(statusCode: int) { 200 <= statusCode <= 299 }

  /** `texts[i]` is the "text" string of option `i`, or "" where that property is null. */
  predicate TextsOf(options: seq<Json>, texts: seq<string>)
  {
    |texts| == |options| && forall i :: 0 <= i < |options| ==> OptionText(options[i], texts[i])
  }

  /** `text` is what one option object yields: its "text" string, or "" for a null. */
  predicate OptionText(option: Json, text: string)
  {
    option.JObject? &&
    (Get(option.members, "text") == Some(JString(text))
     || (Get(option.members, "text") == Some(JNull) && text == ""))
  }

  /** An option the reader accepts: an object whose "text" is present and is a string or null. */
  predicate Textual(option: Json)
  {
    option.JObject? && Get(option.members, "text").Some?
    && (Get(option.members, "text").value.JString? || Get(option.members, "text").value.JNull?)
  }

  predicate AllTextual(options: seq<Json>)
  {
    forall k :: 0 <= k < |options| ==> Textual(options[k])
  }

  /**
   * `opt.GetProperty("text").GetString() ?? ""` for every option, in order; the first failure
   * is raised, so the read succeeds exactly when every option is textual.
   */
  function OptionTexts(options: seq<Json>): (r: Result<seq<string>, Exception>)
    ensures r.Success? <==> AllTextual(options)
    ensures r.Success? ==> TextsOf(options, r.value)
  {
    if options == [] then Success([])
    else
      var element :- GetProperty(options[0], "text");
      var text :- GetString(element);
      var rest :- OptionTexts(options[1..]);
      assert OptionText(options[0], text.GetOr(""));
      TextsOfCons(options[0], text.GetOr(""), options[1..], rest);
      assert [options[0]] + options[1..] == options;
      Success([text.GetOr("")] + rest)
  }

  lemma TextsOfCons(option: Json, text: string, options: seq<Json>, texts: seq<string>)
    requires TextsOf(options, texts) && OptionText(option, text)
    ensures TextsOf([option] + options, [text] + texts)
  {
    var os, ts := [option] + options, [text] + texts;
    forall i | 1 <= i < |os|
      ensures os[i] == options[i - 1] && ts[i] == texts[i - 1]
    {
    }
  }

  /**
   * `Where(s => !string.IsNullOrWhiteSpace(s))`: every non-blank text as often as it occurs,
   * and no blank one.
   */
  function NonBlank(texts: seq<string>): (r: seq<string>)
    ensures forall s :: s in r <==> s in texts && !Text.IsNullOrWhiteSpace(Some(s))
    ensures forall s :: multiset(r)[s] == if Text.IsNullOrWhiteSpace(Some(s)) then 0 else multiset(texts)[s]
    ensures |r| <= |texts|
  {
    if texts == [] then []
    else
      assert texts == [texts[0]] + texts[1..];
      (if Text.IsNullOrWhiteSpace(Some(texts[0])) then [] else [texts[0]]) + NonBlank(texts[1..])
  }

  /** The filter keeps order: two kept texts first appear in the same order before and after it. */
  lemma {:induction false} NonBlankKeepsOrder(texts: seq<string>, x: string, y: string)
    requires x in NonBlank(texts) && y in NonBlank(texts)
    ensures x in texts && y in texts
    ensures Text.FirstIndex(NonBlank(texts), x) < Text.FirstIndex(NonBlank(texts), y)
            <==> Text.FirstIndex(texts, x) < Text.FirstIndex(texts, y)
  {
    var rest := texts[1..];
    var kept := NonBlank(texts);
    if Text.IsNullOrWhiteSpace(Some(texts[0])) {
      assert kept == NonBlank(rest);
      NonBlankKeepsOrder(rest, x, y);
    } else {
      assert kept == [texts[0]] + NonBlank(rest);
      assert kept[1..] == NonBlank(rest);
      if x != texts[0] && y != texts[0] {
        NonBlankKeepsOrder(rest, x, y);
      }
    }
  }

  /**
   * `result` is what `Where(non-blank).Distinct()` leaves of `texts`: each non-blank text once,
   * nothing else, in the order of their first appearance.
   */
  ghost predicate DistinctNonBlank(texts: seq<string>, result: seq<string>)
  {
    && Text.NoDuplicates(result)
    && (forall s :: s in result <==> s in texts && !Text.IsNullOrWhiteSpace(Some(s)))
    && Text.InFirstOccurrenceOrder(texts, result)
  }

  /** The description is complete: the filtered, de-duplicated texts are the one list it admits. */
  lemma DistinctNonBlankUnique(texts: seq<string>, result: seq<string>)
    requires DistinctNonBlank(texts, result)
    ensures result == Text.Distinct(NonBlank(texts))
  {
    KeptOrder(texts);
    Text.FirstOccurrenceOrderUnique(texts, result, Text.Distinct(NonBlank(texts)));
  }

  lemma KeptOrder(texts: seq<string>)
    ensures DistinctNonBlank(texts, Text.Distinct(NonBlank(texts)))
  {
    var kept := NonBlank(texts);
    var result := Text.Distinct(kept);
    forall i, j | 0 <= i < j < |result|
      ensures result[i] in texts && result[j] in texts
      ensures Text.FirstIndex(texts, result[i]) < Text.FirstIndex(texts, result[j])
    {
      NonBlankKeepsOrder(texts, result[i], result[j]);
    }
    assert Text.InFirstOccurrenceOrder(texts, result);
  }

  /** The options of the first "destination_suggest" entry, when the reply has them as an array. */
  function OptionItems(root: Json): Option<seq<Json>>
  {
    match At(root, ["suggest", "destination_suggest"])
    case Some(JArray(entries)) =>
      if |entries| > 0 && entries[0].JObject? then
        match Get(entries[0].members, "options")
        case Some(JArray(items)) => Some(items)
        case _ => None
      else None
    case _ => None
  }

  /** When the reply has an options array, every step of the path to it is there. */
  lemma OptionItemsPath(root: Json)
    ensures OptionItems(root).Some? ==>
      root.JObject? && Get(root.members, "suggest").Some? &&
      (var suggest := Get(root.members, "suggest").value;
       suggest.JObject? && Get(suggest.members, "destination_suggest").Some? &&
       (var destinations := Get(suggest.members, "destination_suggest").value;
        destinations.JArray? && |destinations.items| > 0 && destinations.items[0].JObject? &&
        Get(destinations.items[0].members, "options") == Some(JArray(OptionItems(root).value))))
  {
    if OptionItems(root).Some? {
      assert ["suggest", "destination_suggest"][1..] == ["destination_suggest"];
      assert ["destination_suggest"][1..] == [];
    }
  }

  /**
   * The reply shapes answered with an empty list: no "suggest", no "destination_suggest",
   * an empty "destination_suggest" array, or a first entry without "options".
   */
  ghost predicate NoSuggestions(root: Json)
  {
    root.JObject? &&
    match Get(root.members, "suggest")
    case None => true
    case Some(suggest) =>
      suggest.JObject? &&
      match Get(suggest.members, "destination_suggest")
      case None => true
      case Some(destinations) =>
        destinations.JArray? &&
        (|destinations.items| == 0
         || (destinations.items[0].JObject? && Get(destinations.items[0].members, "options").None?))
  }

  /** `opt` is an option object whose "text" is `s`. */
  predicate HasText(opt: Json, s: string)
  {
    opt.JObject? && Get(opt.members, "text") == Some(JString(s))
  }

  /**
   * Reads the suggestion texts out of a parsed reply. Where the reply holds an options array,
   * the read succeeds exactly when every option is textual, and then yields every non-blank
   * option text once, in the order of its first option. Any other shape has a member of the
   * wrong JSON kind on the path, and the accessor that meets it raises.
   */
  function Extract(root: Json): (r: Result<seq<string>, Exception>)
    ensures r.Success? ==> Text.NoDuplicates(r.value)
    ensures r.Success? ==> forall s :: s in r.value ==> s != "" && !Text.AllWhiteSpace(s)
    ensures r.Success? && r.value != [] ==>
      && OptionItems(root).Some?
      && |r.value| <= |OptionItems(root).value|
      && forall s :: s in r.value ==> exists opt :: opt in OptionItems(root).value && HasText(opt, s)
    ensures OptionItems(root).Some? ==> (r.Success? <==> AllTextual(OptionItems(root).value))
    ensures OptionItems(root).Some? && r.Success? ==>
      && OptionTexts(OptionItems(root).value).Success?
      && DistinctNonBlank(OptionTexts(OptionItems(root).value).value, r.value)
    ensures OptionItems(root).Some? && r.Success? ==>
      forall k, s ::
        0 <= k < |OptionItems(root).value| && HasText(OptionItems(root).value[k], s) && !Text.IsNullOrWhiteSpace(Some(s))
        ==> s in r.value
    ensures root.JObject? && At(root, ["suggest"]).None? ==> r == Success([])
    ensures (At(root, ["suggest"]).Some? && At(root, ["suggest"]).value.JObject?
             && At(root, ["suggest", "destination_suggest"]).None?) ==> r == Success([])
    ensures At(root, ["suggest", "destination_suggest"]) == Some(JArray([])) ==> r == Success([])
    ensures (At(root, ["suggest", "destination_suggest"]).Some?
             && At(root, ["suggest", "destination_suggest"]).value.JArray?
             && |At(root, ["suggest", "destination_suggest"]).value.items| > 0
             && At(root, ["suggest", "destination_suggest"]).value.items[0].JObject?
             && Get(At(root, ["suggest", "destination_suggest"]).value.items[0].members, "options").None?)
            ==> r == Success([])
    ensures NoSuggestions(root) ==> r == Success([])
    ensures !NoSuggestions(root) && OptionItems(root).None? ==> r == Failure(JsonKindMismatch)
  {
    OptionItemsPath(root);
    var suggest :- TryGetProperty(root, "suggest");
    if suggest.None? then Success([])
    else
      var destinations :- TryGetProperty(suggest.value, "destination_suggest");
      if destinations.None? then Success([])
      else
        var entries :- EnumerateArray(destinations.value);
        if |entries| == 0 then Success([])
        else
          var options :- TryGetProperty(entries[0], "options");
          if options.None? then Success([])
          else
            var items :- EnumerateArray(options.value);
            ExtractPath(root, suggest.value, destinations.value, entries, options.value, items);
            var texts :- OptionTexts(items);
            var kept := NonBlank(texts);
            var result := Text.Distinct(kept);
            ExtractFacts(items, texts, kept, result);
            Success(result)
  }

  /**
   * What the options yield: each non-blank text once, in order of first appearance, every
   * non-blank option text among them, and each of them the text of some option.
   */
  lemma ExtractFacts(items: seq<Json>, texts: seq<string>, kept: seq<string>, result: seq<string>)
    requires TextsOf(items, texts)
    requires kept == NonBlank(texts) && result == Text.Distinct(kept)
    ensures DistinctNonBlank(texts, result)
    ensures forall k, s :: 0 <= k < |items| && HasText(items[k], s) && !Text.IsNullOrWhiteSpace(Some(s)) ==> s in result
    ensures forall s :: s in result ==> s != "" && !Text.AllWhiteSpace(s)
    ensures |result| <= |items|
    ensures forall s :: s in result ==> exists opt :: opt in items && HasText(opt, s)
  {
    KeptOrder(texts);
    KeptTexts(items, texts, kept, result);
    forall k, s | 0 <= k < |items| && HasText(items[k], s) && !Text.IsNullOrWhiteSpace(Some(s))
      ensures s in result
    {
      assert OptionText(items[k], texts[k]);
      assert texts[k] == s;
    }
  }

  /** Where the options sit in the reply. */
  lemma ExtractPath(root: Json, suggest: Json, destinations: Json, entries: seq<Json>, options: Json, items: seq<Json>)
    requires root.JObject? && Get(root.members, "suggest") == Some(suggest)
    requires suggest.JObject? && Get(suggest.members, "destination_suggest") == Some(destinations)
    requires destinations == JArray(entries) && |entries| > 0
    requires entries[0].JObject? && Get(entries[0].members, "options") == Some(options)
    requires options == JArray(items)
    ensures At(root, ["suggest", "destination_suggest"]) == Some(destinations)
    ensures OptionItems(root) == Some(items)
  {
    assert ["suggest", "destination_suggest"][1..] == ["destination_suggest"];
    assert ["destination_suggest"][1..] == [];
  }

  /** What survives the blank filter and the de-duplication is the text of some option. */
  lemma KeptTexts(items: seq<Json>, texts: seq<string>, kept: seq<string>, result: seq<string>)
    requires TextsOf(items, texts)
    requires kept == NonBlank(texts) && result == Text.Distinct(kept)
    ensures forall s :: s in result ==> s != "" && !Text.AllWhiteSpace(s)
    ensures |result| <= |items|
    ensures forall s :: s in result ==> exists opt :: opt in items && HasText(opt, s)
  {
    forall s | s in result
      ensures s != "" && !Text.AllWhiteSpace(s)
      ensures exists opt :: opt in items && HasText(opt, s)
    {
      assert s in kept;
      assert s in texts && !Text.IsNullOrWhiteSpace(Some(s));
      var i :| 0 <= i < |texts| && texts[i] == s;
      OptionTextAt(items, texts, i);
      assert items[i] in items;
    }
  }

  /** A non-empty text read from an option is that option's "text" string. */
  lemma OptionTextAt(items: seq<Json>, texts: seq<string>, i: int)
    requires TextsOf(items, texts) && 0 <= i < |texts| && texts[i] != ""
    ensures HasText(items[i], texts[i])
  {
  }

  /**
   * `GetDestinationSuggestionsAsync` after the request is sent: a status outside 2xx raises
   * an exception carrying the status and the body; otherwise the body is parsed and read.
   */
  function Suggestions(reply: Reply, parseJson: string -> Option<Json>): (r: Result<seq<string>, Exception>)
    ensures !IsSuccessStatusCode(reply.statusCode) ==>
      r == Failure(GeneralException("Elasticsearch query failed: " + reply.statusName + " - " + reply.content))
    ensures IsSuccessStatusCode(reply.statusCode) && parseJson(reply.content).None? ==> r == Failure(JsonReaderError)
    ensures IsSuccessStatusCode(reply.statusCode) && parseJson(reply.content).Some? ==>
      r == Extract(parseJson(reply.content).value)
  {
    if !IsSuccessStatusCode(reply.statusCode) then
      Failure(GeneralException("Elasticsearch query failed: " + reply.statusName + " - " + reply.content))
    else
      match parseJson(reply.content)
      case None => Failure(JsonReaderError)
      case Some(root) => Extract(root)
  }
}
