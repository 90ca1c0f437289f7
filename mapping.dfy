/**
 * `JsonToAccommodationMapper.Map`: turns one indexed accommodation document into the
 * fields the search results are built from. Parsing a Guid and an AccommodationType name
 * are the parameters `parseGuid` and `parseEnum`.
 */
module Mapping {
  import opened Wrappers
  import opened Primitives
  import opened Json
  import opened Coordinates
  import CoordinateParsing

  /** An AccommodationType enum value, as its underlying integer; 0 is the default member. */
  type AccommodationType = int

  /** The accommodation as the index describes it. */
  datatype IndexedAccommodation = IndexedAccommodation(
    id: Guid,
    name: string,
    country: string,
    administrationLevel1: string,
    administrationLevel2: string,
    fullDestination: string,
    accommodationType: AccommodationType,
    coordinate: Coordinate)

  /** The members the mapper requires, in the order it reads them. */
  const RequiredMembers := ["id", "name", "country", "administrationLevel1", "administrationLevel2",
                            "fullDestination", "accommodationType"]

  /** `GetProperty(name).GetString() ?? ""`. */
  function TextMember(root: Json, name: string): (r: Result<string, Exception>)
    ensures r.Success? <==> root.JObject? && name in Keys(root.members)
                            && (Get(root.members, name).value.JString? || Get(root.members, name).value.JNull?)
    ensures r.Success? ==>
      Get(root.members, name) == Some(JString(r.value)) || (Get(root.members, name) == Some(JNull) && r.value == "")
  {
    var element :- GetProperty(root, name);
    var s :- GetString(element);
    Success(s.GetOr(""))
  }

  /** `JsonElement.GetGuid`: the element must be a string holding a Guid. */
  function GetGuid(j: Json, parseGuid: string -> Option<Guid>): (r: Result<Guid, Exception>)
    ensures r.Success? <==> j.JString? && parseGuid(j.s).Some?
    ensures r.Success? ==> parseGuid(j.s) == Some(r.value)
  {
    if !j.JString? then Failure(JsonKindMismatch)
    else if parseGuid(j.s).None? then Failure(GuidFormatError)
    else Success(parseGuid(j.s).value)
  }

  /**
   * `Map`: reads id, then the six text members, then the coordinate, then the type name.
   * A missing member fails the mapping, a JSON null text becomes "", an unknown type name
   * becomes the default type, and the coordinate is exactly what CoordinateParser gives.
   */
  function Map(root: Json, parseGuid: string -> Option<Guid>, parseEnum: string -> Option<AccommodationType>,
               tryParseDouble: string -> Option<real>): (r: Result<IndexedAccommodation, Exception>)
    ensures r.Success? ==> root.JObject? && forall m :: m in RequiredMembers ==> m in Keys(root.members)
    ensures r.Success? ==>
      && Get(root.members, "id").value.JString?
      && parseGuid(Get(root.members, "id").value.s) == Some(r.value.id)
    ensures r.Success? ==> TextMember(root, "name") == Success(r.value.name)
    ensures r.Success? ==> TextMember(root, "country") == Success(r.value.country)
    ensures r.Success? ==> TextMember(root, "administrationLevel1") == Success(r.value.administrationLevel1)
    ensures r.Success? ==> TextMember(root, "administrationLevel2") == Success(r.value.administrationLevel2)
    ensures r.Success? ==> TextMember(root, "fullDestination") == Success(r.value.fullDestination)
    ensures r.Success? ==>
      && TextMember(root, "accommodationType").Success?
      && r.value.accommodationType == parseEnum(TextMember(root, "accommodationType").value).GetOr(0)
    ensures r.Success? ==> CoordinateParsing.Parse(root, tryParseDouble) == Success(r.value.coordinate)
    ensures r.Success? ==> Valid(r.value.coordinate)
  {
    var idElement :- GetProperty(root, "id");
    var id :- GetGuid(idElement, parseGuid);
    var name :- TextMember(root, "name");
    var country :- TextMember(root, "country");
    var adminLevel1 :- TextMember(root, "administrationLevel1");
    var adminLevel2 :- TextMember(root, "administrationLevel2");
    var fullDestination :- TextMember(root, "fullDestination");
    var typeName :- TextMember(root, "accommodationType");
    var coordinate :- CoordinateParsing.Parse(root, tryParseDouble);
    var accommodationType := parseEnum(typeName).GetOr(0);
    Success(IndexedAccommodation(id, name, country, adminLevel1, adminLevel2, fullDestination,
                                 accommodationType, coordinate))
  }

  /** `root` stores `a`, with its id and type written as the texts `idText` and `typeName`. */
  predicate Describes(root: Json, a: IndexedAccommodation, idText: string, typeName: string)
  {
    && root.JObject?
    && Get(root.members, "id") == Some(JString(idText))
    && Get(root.members, "name") == Some(JString(a.name))
    && Get(root.members, "country") == Some(JString(a.country))
    && Get(root.members, "administrationLevel1") == Some(JString(a.administrationLevel1))
    && Get(root.members, "administrationLevel2") == Some(JString(a.administrationLevel2))
    && Get(root.members, "fullDestination") == Some(JString(a.fullDestination))
    && Get(root.members, "accommodationType") == Some(JString(typeName))
    && Get(root.members, "coordinate") == Some(CoordinateParsing.GeoPointObject(a.coordinate))
  }

  lemma DescribedIdentity(root: Json, a: IndexedAccommodation, idText: string, typeName: string,
                          parseGuid: string -> Option<Guid>)
    requires Describes(root, a, idText, typeName) && parseGuid(idText) == Some(a.id)
    ensures GetProperty(root, "id") == Success(JString(idText))
    ensures GetGuid(JString(idText), parseGuid) == Success(a.id)
    ensures TextMember(root, "accommodationType") == Success(typeName)
  {
  }

  lemma DescribedPlace(root: Json, a: IndexedAccommodation, idText: string, typeName: string)
    requires Describes(root, a, idText, typeName)
    ensures TextMember(root, "country") == Success(a.country)
    ensures TextMember(root, "administrationLevel1") == Success(a.administrationLevel1)
    ensures TextMember(root, "administrationLevel2") == Success(a.administrationLevel2)
  {
  }

  lemma DescribedName(root: Json, a: IndexedAccommodation, idText: string, typeName: string)
    requires Describes(root, a, idText, typeName)
    ensures TextMember(root, "name") == Success(a.name)
    ensures TextMember(root, "fullDestination") == Success(a.fullDestination)
  {
  }

  /**
   * Mapping a document that stores an accommodation gives that accommodation back, with the
   * type the enum parser finds for its type name, or the default type when it finds none.
   */
  lemma MapDescribed(root: Json, a: IndexedAccommodation, idText: string, typeName: string,
                     parseGuid: string -> Option<Guid>, parseEnum: string -> Option<AccommodationType>,
                     tryParseDouble: string -> Option<real>)
    requires Describes(root, a, idText, typeName) && Valid(a.coordinate)
    requires parseGuid(idText) == Some(a.id)
    ensures Map(root, parseGuid, parseEnum, tryParseDouble)
         == Success(a.(accommodationType := parseEnum(typeName).GetOr(0)))
  {
    DescribedIdentity(root, a, idText, typeName, parseGuid);
    DescribedPlace(root, a, idText, typeName);
    DescribedName(root, a, idText, typeName);
    CoordinateParsing.StructuredFormsRoundTrip(a.coordinate, tryParseDouble);
    var wrapped := CoordinateParsing.WithCoordinate(CoordinateParsing.GeoPointObject(a.coordinate));
    assert CoordinateParsing.Member(wrapped, "coordinate") == Some(CoordinateParsing.GeoPointObject(a.coordinate));
    assert CoordinateParsing.Parse(root, tryParseDouble) == CoordinateParsing.Parse(wrapped, tryParseDouble);
  }
}
