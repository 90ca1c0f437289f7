/**
 * The fluent builders that assemble Elasticsearch search payloads. `ElasticsearchQueryBuilder`
 * keeps the paging numbers, a body dictionary whose "query", "sort" and "_source" slots the
 * `With*` methods overwrite, and an optional dictionary of named completion suggesters;
 * `Build` lays them out as one JSON object. `BoolQueryBuilder` collects the four clause
 * lists of a bool query.
 */
module QueryBuilding {
  import opened Wrappers
  import opened Primitives
  import opened Json

  /** The default fuzziness of match and multi_match queries. */
  const AutoFuzziness := "AUTO"

  /** The default fuzziness of completion suggesters. */
  const DefaultFuzziness: Int32 := 2

  /** The only body slots the builder writes. */
  const BodySlots := ["query", "sort", "_source"]

  /** `[name]` when the entry is written, `[]` when it is skipped. */
  function KeyIf(present: bool, name: string): seq<string>
  {
    if present then [name] else []
  }

  function Strings(ss: seq<string>): (r: seq<Json>)
    ensures |r| == |ss| && forall i :: 0 <= i < |ss| ==> r[i] == JString(ss[i])
  {
    if ss == [] then [] else [JString(ss[0])] + Strings(ss[1..])
  }

  // ---------------------------------------------------------- query clause shapes

  /** `{"match": {field: {"query": query, "fuzziness": fuzziness}}}` */
  function MatchQuery(field: string, query: string, fuzziness: string): Json
  {
    JObject([("match", JObject([(field, JObject([("query", JString(query)), ("fuzziness", JString(fuzziness))]))]))])
  }

  /** `{"multi_match": {"query": query, "fields": fields, "fuzziness": fuzziness}}` */
  function MultiMatchQuery(fields: seq<string>, query: string, fuzziness: string): Json
  {
    JObject([("multi_match", JObject([("query", JString(query)), ("fields", JArray(Strings(fields))),
                                      ("fuzziness", JString(fuzziness))]))])
  }

  /** The bounds object of a range query: "gte" and "lte" appear only for the bounds given. */
  function RangeBounds(gte: Option<Json>, lte: Option<Json>): (r: Members)
    ensures Get(r, "gte") == gte && Get(r, "lte") == lte
    ensures Keys(r) == KeyIf(gte.Some?, "gte") + KeyIf(lte.Some?, "lte")
    ensures UniqueKeys(r) && |r| <= 2
  {
    match (gte, lte)
    case (Some(g), Some(l)) => [("gte", g), ("lte", l)]
    case (Some(g), None) => [("gte", g)]
    case (None, Some(l)) => [("lte", l)]
    case (None, None) => []
  }

  /** `{"range": {field: bounds}}` */
  function RangeQuery(field: string, gte: Option<Json>, lte: Option<Json>): Json
  {
    JObject([("range", JObject([(field, JObject(RangeBounds(gte, lte)))]))])
  }

  /** `{"term": {field: value}}` */
  function TermQuery(field: string, value: Json): Json
  {
    JObject([("term", JObject([(field, value)]))])
  }

  /** One completion suggester: `{"prefix": p, "completion": {"field": f, "size": n, "fuzzy": {"fuzziness": z}}}` */
  function CompletionSuggester(prefix: string, field: string, size: Int32, fuzziness: Int32): Json
  {
    JObject([("prefix", JString(prefix)),
             ("completion", JObject([("field", JString(field)), ("size", Num(size)),
                                     ("fuzzy", JObject([("fuzziness", Num(fuzziness))]))]))])
  }

  /** `[{field: {"order": order}}]` */
  function SortClause(field: string, order: string): Json
  {
    JArray([JObject([(field, JObject([("order", JString(order))]))])])
  }

  // ------------------------------------------------------------------ payload

  /** The payload `Build` lays out: paging first, then the body slots in write order, then "suggest". */
  function Payload(from: Int32, size: Int32, body: Members, suggest: Option<Members>): Members
  {
    var paged := PutAll([("from", Num(from)), ("size", Num(size))], body);
    if suggest.Some? then Put(paged, "suggest", JObject(suggest.value)) else paged
  }

  /** The body holds distinct names, each one of the slots the builder writes. */
  predicate WellFormedBody(body: Members)
  {
    UniqueKeys(body) && forall k :: k in Keys(body) ==> k in BodySlots
  }

  lemma PagingUnique(from: Int32, size: Int32)
    ensures UniqueKeys([("from", Num(from)), ("size", Num(size))])
  {
    assert Keys([("from", Num(from)), ("size", Num(size))]) == ["from", "size"];
  }

  /** "from" and "size" always appear and carry the paging numbers, whatever the body holds. */
  lemma PayloadPaging(from: Int32, size: Int32, body: Members, suggest: Option<Members>)
    requires WellFormedBody(body)
    ensures Get(Payload(from, size, body, suggest), "from") == Some(Num(from))
    ensures Get(Payload(from, size, body, suggest), "size") == Some(Num(size))
  {
    var paging := [("from", Num(from)), ("size", Num(size))];
    assert Get(paging, "from") == Some(Num(from)) && Get(paging, "size") == Some(Num(size));
    PutAllOtherGet(paging, body, "from");
    PutAllOtherGet(paging, body, "size");
    if suggest.Some? {
      var paged := PutAll(paging, body);
      PutOtherGet(paged, "suggest", JObject(suggest.value), "from");
      PutOtherGet(paged, "suggest", JObject(suggest.value), "size");
    }
  }

  /** Every body slot is copied to the payload with its value. */
  lemma PayloadBody(from: Int32, size: Int32, body: Members, suggest: Option<Members>, slot: string)
    requires WellFormedBody(body) && slot in BodySlots
    ensures Get(Payload(from, size, body, suggest), slot) == Get(body, slot)
  {
    var paging := [("from", Num(from)), ("size", Num(size))];
    var paged := PutAll(paging, body);
    PagingUnique(from, size);
    if slot in Keys(body) {
      PutAllGet(paging, body, slot);
    } else {
      PutAllOtherGet(paging, body, slot);
      assert Get(paging, slot) == None;
    }
    if suggest.Some? {
      PutOtherGet(paged, "suggest", JObject(suggest.value), slot);
    }
  }

  /** "suggest" appears exactly when some suggester was added, and holds all of them. */
  lemma PayloadSuggest(from: Int32, size: Int32, body: Members, suggest: Option<Members>)
    requires WellFormedBody(body)
    ensures Get(Payload(from, size, body, suggest), "suggest") ==
      if suggest.Some? then Some(JObject(suggest.value)) else None
  {
    var paging := [("from", Num(from)), ("size", Num(size))];
    var paged := PutAll(paging, body);
    PagingUnique(from, size);
    PutAllKeepsUnique(paging, body);
    if suggest.Some? {
      PutThenGet(paged, "suggest", JObject(suggest.value));
    } else {
      assert "suggest" !in Keys(body);
      PutAllOtherGet(paging, body, "suggest");
      assert Get(paging, "suggest") == None;
    }
  }

  /** The payload's names in order: "from", "size", the body's slots in first-write order, then "suggest". */
  lemma PayloadKeys(from: Int32, size: Int32, body: Members, suggest: Option<Members>)
    requires WellFormedBody(body)
    ensures Keys(Payload(from, size, body, suggest)) ==
      ["from", "size"] + Keys(body) + (if suggest.Some? then ["suggest"] else [])
    ensures UniqueKeys(Payload(from, size, body, suggest))
  {
    var paging := [("from", Num(from)), ("size", Num(size))];
    assert Keys(paging) == ["from", "size"];
    PagingUnique(from, size);
    forall i | 0 <= i < |body| ensures body[i].0 !in Keys(paging) {
      assert body[i].0 == Keys(body)[i] && Keys(body)[i] in Keys(body);
    }
    PutAllKeys(paging, body);
    PutAllKeepsUnique(paging, body);
    var paged := PutAll(paging, body);
    if suggest.Some? {
      assert "suggest" !in Keys(body);
      assert "suggest" !in Keys(paged);
      PutKeepsUnique(paged, "suggest", JObject(suggest.value));
    }
  }

  // ------------------------------------------------------------ BoolQueryBuilder

  /** The clause lists of a bool query, each in insertion order. */
  class BoolQueryBuilder {
    var must: seq<Json>
    var should: seq<Json>
    var mustNot: seq<Json>
    var filter: seq<Json>

    constructor()
      ensures must == [] && should == [] && mustNot == [] && filter == []
    {
      must, should, mustNot, filter := [], [], [], [];
    }

    method Must(query: Json) returns (self: BoolQueryBuilder)
      modifies this
      ensures self == this
      ensures must == old(must) + [query]
      ensures should == old(should) && mustNot == old(mustNot) && filter == old(filter)
    {
      must := must + [query];
      self := this;
    }

    method Should(query: Json) returns (self: BoolQueryBuilder)
      modifies this
      ensures self == this
      ensures should == old(should) + [query]
      ensures must == old(must) && mustNot == old(mustNot) && filter == old(filter)
    {
      should := should + [query];
      self := this;
    }

    method MustNot(query: Json) returns (self: BoolQueryBuilder)
      modifies this
      ensures self == this
      ensures mustNot == old(mustNot) + [query]
      ensures must == old(must) && should == old(should) && filter == old(filter)
    {
      mustNot := mustNot + [query];
      self := this;
    }

    method Filter(query: Json) returns (self: BoolQueryBuilder)
      modifies this
      ensures self == this
      ensures filter == old(filter) + [query]
      ensures must == old(must) && should == old(should) && mustNot == old(mustNot)
    {
      filter := filter + [query];
      self := this;
    }

    /**
     * The bool query object: each of "must", "should", "must_not" and "filter" appears
     * exactly when its list is non-empty, and then holds that list.
     */
    function Build(): (r: Json)
      reads this
      ensures r.JObject? && IsBoolQuery(r.members, must, should, mustNot, filter)
    {
      BoolQueryFacts(must, should, mustNot, filter);
      JObject(BoolQuery(must, should, mustNot, filter))
    }
  }

  /** The members of a bool query: each non-empty clause list under its name, in this order. */
  function BoolQuery(must: seq<Json>, should: seq<Json>, mustNot: seq<Json>, filter: seq<Json>): Members
  {
    PutClauses(PutClauses(PutClauses(PutClauses([], "must", must), "should", should), "must_not", mustNot), "filter", filter)
  }

  lemma BoolQueryFacts(must: seq<Json>, should: seq<Json>, mustNot: seq<Json>, filter: seq<Json>)
    ensures IsBoolQuery(BoolQuery(must, should, mustNot, filter), must, should, mustNot, filter)
  {
    BoolQueryParts(must, should, mustNot, filter);
  }

  /**
   * `ms` is the bool query object of the four clause lists: exactly the keys of the non-empty
   * lists, in the order must, should, must_not, filter, each holding its list.
   */
  ghost predicate IsBoolQuery(ms: Members, must: seq<Json>, should: seq<Json>, mustNot: seq<Json>, filter: seq<Json>)
  {
    && UniqueKeys(ms) && |ms| <= 4
    && Keys(ms) == KeyIf(must != [], "must") + KeyIf(should != [], "should")
                   + KeyIf(mustNot != [], "must_not") + KeyIf(filter != [], "filter")
    && Get(ms, "must") == (if must == [] then None else Some(JArray(must)))
    && Get(ms, "should") == (if should == [] then None else Some(JArray(should)))
    && Get(ms, "must_not") == (if mustNot == [] then None else Some(JArray(mustNot)))
    && Get(ms, "filter") == (if filter == [] then None else Some(JArray(filter)))
  }

  lemma BoolQueryParts(must: seq<Json>, should: seq<Json>, mustNot: seq<Json>, filter: seq<Json>)
    ensures var ms := BoolQuery(must, should, mustNot, filter);
      && UniqueKeys(ms) && |ms| <= 4
      && Keys(ms) == KeyIf(must != [], "must") + KeyIf(should != [], "should")
                     + KeyIf(mustNot != [], "must_not") + KeyIf(filter != [], "filter")
      && Get(ms, "must") == (if must == [] then None else Some(JArray(must)))
      && Get(ms, "should") == (if should == [] then None else Some(JArray(should)))
      && Get(ms, "must_not") == (if mustNot == [] then None else Some(JArray(mustNot)))
      && Get(ms, "filter") == (if filter == [] then None else Some(JArray(filter)))
  {
    BoolQueryKeys(must, should, mustNot, filter);
    BoolQueryMust(must, should, mustNot, filter);
    BoolQueryShould(must, should, mustNot, filter);
    BoolQueryMustNot(must, should, mustNot, filter);
    BoolQueryFilter(must, should, mustNot, filter);
  }

  /** Only the non-empty clause lists get a key, in the order must, should, must_not, filter. */
  lemma BoolQueryKeys(must: seq<Json>, should: seq<Json>, mustNot: seq<Json>, filter: seq<Json>)
    ensures Keys(BoolQuery(must, should, mustNot, filter))
            == KeyIf(must != [], "must") + KeyIf(should != [], "should")
               + KeyIf(mustNot != [], "must_not") + KeyIf(filter != [], "filter")
  {
    var m3 := PutClauses(PutClauses(PutClauses([], "must", must), "should", should), "must_not", mustNot);
    var k3 := KeyIf(must != [], "must") + KeyIf(should != [], "should") + KeyIf(mustNot != [], "must_not");
    ThreeClauseKeys(must, should, mustNot);
    assert "filter"[0] != "should"[0];
    KeyIfOmits(must != [], "must", "filter");
    KeyIfOmits(should != [], "should", "filter");
    KeyIfOmits(mustNot != [], "must_not", "filter");
    PutClausesKeys(m3, "filter", filter, k3);
  }

  lemma ThreeClauseKeys(must: seq<Json>, should: seq<Json>, mustNot: seq<Json>)
    ensures Keys(PutClauses(PutClauses(PutClauses([], "must", must), "should", should), "must_not", mustNot))
            == KeyIf(must != [], "must") + KeyIf(should != [], "should") + KeyIf(mustNot != [], "must_not")
  {
    var m2 := PutClauses(PutClauses([], "must", must), "should", should);
    var k2 := KeyIf(must != [], "must") + KeyIf(should != [], "should");
    TwoClauseKeys(must, should);
    KeyIfOmits(must != [], "must", "must_not");
    KeyIfOmits(should != [], "should", "must_not");
    PutClausesKeys(m2, "must_not", mustNot, k2);
  }

  lemma TwoClauseKeys(must: seq<Json>, should: seq<Json>)
    ensures Keys(PutClauses(PutClauses([], "must", must), "should", should))
            == KeyIf(must != [], "must") + KeyIf(should != [], "should")
  {
    var m1 := PutClauses([], "must", must);
    PutClausesKeys([], "must", must, []);
    KeyIfOmits(must != [], "must", "should");
    PutClausesKeys(m1, "should", should, KeyIf(must != [], "must"));
  }

  lemma KeyIfOmits(present: bool, name: string, other: string)
    requires name != other
    ensures other !in KeyIf(present, name)
  {
  }

  /** Writing a non-empty list under a new name appends that name to the keys. */
  lemma PutClausesKeys(ms: Members, name: string, clauses: seq<Json>, ks: seq<string>)
    requires UniqueKeys(ms) && Keys(ms) == ks && name !in ks
    ensures Keys(PutClauses(ms, name, clauses)) == ks + KeyIf(clauses != [], name)
  {
    if clauses != [] {
      assert PutClauses(ms, name, clauses) == Put(ms, name, JArray(clauses));
    }
  }

  lemma BoolQueryMust(must: seq<Json>, should: seq<Json>, mustNot: seq<Json>, filter: seq<Json>)
    ensures Get(BoolQuery(must, should, mustNot, filter), "must") == if must == [] then None else Some(JArray(must))
  {
    var m1 := PutClauses([], "must", must);
    var m2 := PutClauses(m1, "should", should);
    var m3 := PutClauses(m2, "must_not", mustNot);
    PutClausesOther(m1, "should", should, "must");
    PutClausesOther(m2, "must_not", mustNot, "must");
    PutClausesOther(m3, "filter", filter, "must");
  }

  lemma BoolQueryShould(must: seq<Json>, should: seq<Json>, mustNot: seq<Json>, filter: seq<Json>)
    ensures Get(BoolQuery(must, should, mustNot, filter), "should") == if should == [] then None else Some(JArray(should))
  {
    var m1 := PutClauses([], "must", must);
    var m2 := PutClauses(m1, "should", should);
    var m3 := PutClauses(m2, "must_not", mustNot);
    PutClausesOther([], "must", must, "should");
    PutClausesOther(m2, "must_not", mustNot, "should");
    PutClausesOther(m3, "filter", filter, "should");
  }

  lemma BoolQueryMustNot(must: seq<Json>, should: seq<Json>, mustNot: seq<Json>, filter: seq<Json>)
    ensures Get(BoolQuery(must, should, mustNot, filter), "must_not") == if mustNot == [] then None else Some(JArray(mustNot))
  {
    var m1 := PutClauses([], "must", must);
    var m2 := PutClauses(m1, "should", should);
    var m3 := PutClauses(m2, "must_not", mustNot);
    PutClausesOther([], "must", must, "must_not");
    PutClausesOther(m1, "should", should, "must_not");
    PutClausesOther(m3, "filter", filter, "must_not");
  }

  lemma BoolQueryFilter(must: seq<Json>, should: seq<Json>, mustNot: seq<Json>, filter: seq<Json>)
    ensures Get(BoolQuery(must, should, mustNot, filter), "filter") == if filter == [] then None else Some(JArray(filter))
  {
    var m1 := PutClauses([], "must", must);
    var m2 := PutClauses(m1, "should", should);
    PutClausesOther([], "must", must, "filter");
    PutClausesOther(m1, "should", should, "filter");
    PutClausesOther(m2, "must_not", mustNot, "filter");
  }

  /** Adds a clause list under its name when the list is non-empty. */
  function PutClauses(ms: Members, name: string, clauses: seq<Json>): (r: Members)
    requires UniqueKeys(ms)
    ensures UniqueKeys(r)
    ensures |r| <= |ms| + 1
    ensures Get(r, name) == if clauses == [] then Get(ms, name) else Some(JArray(clauses))
  {
    if clauses == [] then ms
    else
      PutKeepsUnique(ms, name, JArray(clauses));
      PutThenGet(ms, name, JArray(clauses));
      Put(ms, name, JArray(clauses))
  }

  /** Adding one clause list leaves every other name as it was. */
  lemma PutClausesOther(ms: Members, name: string, clauses: seq<Json>, other: string)
    requires UniqueKeys(ms) && other != name
    ensures Get(PutClauses(ms, name, clauses), other) == Get(ms, other)
  {
    if clauses != [] {
      PutOtherGet(ms, name, JArray(clauses), other);
    }
  }

  // ---------------------------------------------------- ElasticsearchQueryBuilder

  class ElasticsearchQueryBuilder {
    var body: Members
    var from: Int32
    var size: Int32
    var suggest: Option<Members>

    /** The body is a dictionary over the builder's slots, and so are the named suggesters. */
    predicate Valid()
      reads this
    {
      WellFormedBody(body) && (suggest.Some? ==> UniqueKeys(suggest.value))
    }

    constructor()
      ensures Valid()
      ensures body == [] && from == 0 && size == 0 && suggest == None
    {
      body, from, size, suggest := [], 0, 0, None;
    }

    /** `WithPagination`: the offset is page * limit in wrapping 32-bit arithmetic; the size is the limit. */
    method WithPagination(page: Int32, limit: Int32) returns (self: ElasticsearchQueryBuilder)
      requires Valid()
      modifies this
      ensures Valid() && self == this
      ensures from == WrapInt32(page * limit) && size == limit
      ensures body == old(body) && suggest == old(suggest)
    {
      from := WrapInt32(page * limit);
      size := limit;
      self := this;
    }

    /** `WithSize`: changes the size only. */
    method WithSize(size': Int32) returns (self: ElasticsearchQueryBuilder)
      requires Valid()
      modifies this
      ensures Valid() && self == this
      ensures size == size'
      ensures from == old(from) && body == old(body) && suggest == old(suggest)
    {
      size := size';
      self := this;
    }

    /** Writes one body slot, keeping the body well formed. */
    method SetSlot(slot: string, value: Json)
      requires Valid() && slot in BodySlots
      modifies this
      ensures Valid()
      ensures body == Put(old(body), slot, value)
      ensures Get(body, slot) == Some(value)
      ensures forall k :: k != slot ==> Get(body, k) == Get(old(body), k)
      ensures from == old(from) && size == old(size) && suggest == old(suggest)
    {
      PutKeepsUnique(body, slot, value);
      PutThenGet(body, slot, value);
      forall k | k != slot ensures Get(Put(body, slot, value), k) == Get(body, k) {
        PutOtherGet(body, slot, value, k);
      }
      body := Put(body, slot, value);
    }

    /** `WithMatch`: the query slot becomes a match query, replacing any earlier query. */
    method WithMatch(field: string, query: string, fuzziness: string := AutoFuzziness)
      returns (self: ElasticsearchQueryBuilder)
      requires Valid()
      modifies this
      ensures Valid() && self == this
      ensures body == Put(old(body), "query", MatchQuery(field, query, fuzziness))
      ensures Get(body, "query") == Some(MatchQuery(field, query, fuzziness))
      ensures from == old(from) && size == old(size) && suggest == old(suggest)
    {
      SetSlot("query", MatchQuery(field, query, fuzziness));
      self := this;
    }

    /** `WithMultiMatch`: the query slot becomes a multi_match query over `fields`. */
    method WithMultiMatch(fields: seq<string>, query: string, fuzziness: string := AutoFuzziness)
      returns (self: ElasticsearchQueryBuilder)
      requires Valid()
      modifies this
      ensures Valid() && self == this
      ensures body == Put(old(body), "query", MultiMatchQuery(fields, query, fuzziness))
      ensures Get(body, "query") == Some(MultiMatchQuery(fields, query, fuzziness))
      ensures from == old(from) && size == old(size) && suggest == old(suggest)
    {
      SetSlot("query", MultiMatchQuery(fields, query, fuzziness));
      self := this;
    }

    /**
     * `WithBoolQuery`: the query slot becomes `{"bool": ...}` built from `configured`, the
     * bool builder as the caller's configuration callback leaves it.
     */
    method WithBoolQuery(configured: BoolQueryBuilder) returns (self: ElasticsearchQueryBuilder)
      requires Valid()
      modifies this
      ensures Valid() && self == this
      ensures body == Put(old(body), "query", JObject([("bool", configured.Build())]))
      ensures Get(body, "query") == Some(JObject([("bool", configured.Build())]))
      ensures from == old(from) && size == old(size) && suggest == old(suggest)
    {
      SetSlot("query", JObject([("bool", configured.Build())]));
      self := this;
    }

    /** `WithRangeQuery`: the query slot becomes a range query with the bounds that are given. */
    method WithRangeQuery(field: string, gte: Option<Json> := None, lte: Option<Json> := None)
      returns (self: ElasticsearchQueryBuilder)
      requires Valid()
      modifies this
      ensures Valid() && self == this
      ensures body == Put(old(body), "query", RangeQuery(field, gte, lte))
      ensures Get(body, "query") == Some(RangeQuery(field, gte, lte))
      ensures from == old(from) && size == old(size) && suggest == old(suggest)
    {
      SetSlot("query", RangeQuery(field, gte, lte));
      self := this;
    }

    /** `WithTermQuery`: the query slot becomes a term query. */
    method WithTermQuery(field: string, value: Json) returns (self: ElasticsearchQueryBuilder)
      requires Valid()
      modifies this
      ensures Valid() && self == this
      ensures body == Put(old(body), "query", TermQuery(field, value))
      ensures Get(body, "query") == Some(TermQuery(field, value))
      ensures from == old(from) && size == old(size) && suggest == old(suggest)
    {
      SetSlot("query", TermQuery(field, value));
      self := this;
    }

    /** `WithSort`: the sort slot becomes a one-field sort. */
    method WithSort(field: string, order: string := "asc") returns (self: ElasticsearchQueryBuilder)
      requires Valid()
      modifies this
      ensures Valid() && self == this
      ensures body == Put(old(body), "sort", SortClause(field, order))
      ensures from == old(from) && size == old(size) && suggest == old(suggest)
    {
      SetSlot("sort", SortClause(field, order));
      self := this;
    }

    /** `WithSourceFields`: the _source slot becomes the list of fields. */
    method WithSourceFields(fields: seq<string>) returns (self: ElasticsearchQueryBuilder)
      requires Valid()
      modifies this
      ensures Valid() && self == this
      ensures body == Put(old(body), "_source", JArray(Strings(fields)))
      ensures from == old(from) && size == old(size) && suggest == old(suggest)
    {
      SetSlot("_source", JArray(Strings(fields)));
      self := this;
    }

    /**
     * `WithSuggestion`: creates the suggester dictionary on first use, then sets the named
     * suggester; a name used again replaces its suggester in place, new names are appended.
     */
    method WithSuggestion(name: string, prefix: string, field: string, size': Int32,
                          fuzziness: Int32 := DefaultFuzziness)
      returns (self: ElasticsearchQueryBuilder)
      requires Valid()
      modifies this
      ensures Valid() && self == this
      ensures suggest == Some(Put(old(suggest).GetOr([]), name, CompletionSuggester(prefix, field, size', fuzziness)))
      ensures Get(suggest.value, name) == Some(CompletionSuggester(prefix, field, size', fuzziness))
      ensures forall k :: k != name ==> Get(suggest.value, k) == Get(old(suggest).GetOr([]), k)
      ensures from == old(from) && size == old(size) && body == old(body)
    {
      var existing := suggest.GetOr([]);
      var entry := CompletionSuggester(prefix, field, size', fuzziness);
      PutKeepsUnique(existing, name, entry);
      PutThenGet(existing, name, entry);
      forall k | k != name ensures Get(Put(existing, name, entry), k) == Get(existing, k) {
        PutOtherGet(existing, name, entry, k);
      }
      suggest := Some(Put(existing, name, entry));
      self := this;
    }

    /**
     * `Build`: a new object holding "from" and "size", then every body slot copied in order,
     * then the suggesters when there are any. The builder is left unchanged, so two calls
     * give equal payloads.
     */
    method Build() returns (r: Json)
      requires Valid()
      ensures r == JObject(Payload(from, size, body, suggest))
      ensures Get(r.members, "from") == Some(Num(from)) && Get(r.members, "size") == Some(Num(size))
      ensures forall slot :: slot in BodySlots ==> Get(r.members, slot) == Get(body, slot)
      ensures Get(r.members, "suggest") == if suggest.Some? then Some(JObject(suggest.value)) else None
      ensures Keys(r.members) == ["from", "size"] + Keys(body) + (if suggest.Some? then ["suggest"] else [])
    {
      var result: Members := [("from", Num(from)), ("size", Num(size))];
      var i := 0;
      while i < |body|
        invariant 0 <= i <= |body|
        invariant result == PutAll([("from", Num(from)), ("size", Num(size))], body[..i])
      {
        assert body[..i + 1] == body[..i] + [body[i]];
        PutAllSnoc([("from", Num(from)), ("size", Num(size))], body[..i], body[i]);
        result := Put(result, body[i].0, body[i].1);
        i := i + 1;
      }
      assert body[..i] == body;
      if suggest.Some? {
        result := Put(result, "suggest", JObject(suggest.value));
      }
      r := JObject(result);
      PayloadPaging(from, size, body, suggest);
      forall slot | slot in BodySlots ensures Get(r.members, slot) == Get(body, slot) {
        PayloadBody(from, size, body, suggest, slot);
      }
      PayloadSuggest(from, size, body, suggest);
      PayloadKeys(from, size, body, suggest);
    }
  }

  /** Of two writes to the query slot, the later one is what the payload carries. */
  lemma LastQueryWins(body: Members, first: Json, second: Json, from: Int32, size: Int32, suggest: Option<Members>)
    requires WellFormedBody(body)
    ensures Get(Payload(from, size, Put(Put(body, "query", first), "query", second), suggest), "query") == Some(second)
  {
    PutPut(body, "query", first, second);
    PutKeepsUnique(body, "query", second);
    PutThenGet(body, "query", second);
    var b := Put(body, "query", second);
    assert forall k :: k in Keys(b) ==> k in BodySlots;
    PayloadBody(from, size, b, suggest, "query");
  }
}
