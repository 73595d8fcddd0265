/** The raw upstream payload as decoded by `json.load`: string-keyed objects,
    arrays, integers, strings, booleans and null. Typed member access fails with
    a `SchemaError` naming the key, never with a partial value. */
module Json {
  import opened Wrappers

  datatype Json =
    | JNull
    | JBool(b: bool)
    | JInt(n: int)
    | JStr(s: string)
    | JArr(items: seq<Json>)
    | JObj(fields: map<string, Json>)

  /** Why a payload cannot be converted. */
  datatype SchemaError =
    | NotAnObject(key: string)          // `x[key]` on something that is not an object
    | MissingKey(key: string)           // `KeyError`
    | WrongType(key: string)            // value of the wrong JSON type for its field
    | UnknownName(key: string, name: string)  // enum `Value(name)` raised `ValueError`
    | UnknownMapId(mapId: int)          // static map table has no entry
    | MissingParticipant(participantId: int)
    | MissingIdentity(participantId: int)
    | TeamCount(count: int)             // a match holds exactly two teams
    | DuplicateTeamId(teamId: int)
    | ParticipantCount(teamId: int, count: int)  // a team holds exactly five participants

  /** `j[key] == n` for an integer `n`, as the test's assertions read it. */
  predicate IntAt(j: Json, key: string, n: int)
  {
    j.JObj? && key in j.fields && j.fields[key].JInt? && j.fields[key].n == n
  }

  /** `j[key] == b` for a boolean `b`. */
  predicate BoolAt(j: Json, key: string, b: bool)
  {
    j.JObj? && key in j.fields && j.fields[key].JBool? && j.fields[key].b == b
  }

  /** `j[key] == s` for a string `s`. */
  predicate StrAt(j: Json, key: string, s: string)
  {
    j.JObj? && key in j.fields && j.fields[key].JStr? && j.fields[key].s == s
  }

  /** `x[key]` evaluates: `x` is an object holding `key`. */
  predicate Keyed(x: Json, key: string)
  {
    x.JObj? && key in x.fields
  }

  /** How `next((x for x in s if x[key] == id), None)` ends: with the first
      matching element, with `None`, or with the `TypeError`/`KeyError` raised
      by `x[key]` on an element reached before any match. */
  datatype Search = Found(index: nat) | Absent | Raised(error: SchemaError)

  /** The search by id that finds a participant, an identity or a team. Every
      element up to the match is indexed by `key`; a value of another JSON type
      is compared and simply does not match. */
  function FirstWith(s: seq<Json>, key: string, id: int): (r: Search)
    ensures r.Found? ==> r.index < |s| && IntAt(s[r.index], key, id)
    ensures r.Found? ==> forall j :: 0 <= j < r.index ==> Keyed(s[j], key) && !IntAt(s[j], key, id)
    ensures r.Absent? <==> forall j :: 0 <= j < |s| ==> Keyed(s[j], key) && !IntAt(s[j], key, id)
    ensures r.Raised? ==>
              && (r.error == NotAnObject(key) || r.error == MissingKey(key))
              && exists j :: 0 <= j < |s| && !Keyed(s[j], key) &&
                   forall k :: 0 <= k < j ==> Keyed(s[k], key) && !IntAt(s[k], key, id)
  {
    if |s| == 0 then Absent
    else match Member(s[0], key)
      case Failure(e) =>
        assert !Keyed(s[0], key);
        Raised(e)
      case Success(v) =>
        if v.JInt? && v.n == id then Found(0)
        else match FirstWith(s[1..], key, id)
          case Found(i) => Found(i + 1)
          case Absent => Absent
          case Raised(e) =>
            ghost var j :| 0 <= j < |s[1..]| && !Keyed(s[1..][j], key) &&
                           forall k :: 0 <= k < j ==> Keyed(s[1..][k], key) && !IntAt(s[1..][k], key, id);
            assert !Keyed(s[j + 1], key);
            Raised(e)
  }

  function Member(j: Json, key: string): (r: Result<Json, SchemaError>)
    ensures r.Success? <==> j.JObj? && key in j.fields
    ensures r.Success? ==> r.value == j.fields[key]
    ensures !j.JObj? ==> r == Failure(NotAnObject(key))
    ensures j.JObj? && key !in j.fields ==> r == Failure(MissingKey(key))
  {
    if !j.JObj? then Failure(NotAnObject(key))
    else if key !in j.fields then Failure(MissingKey(key))
    else Success(j.fields[key])
  }

  function IntMember(j: Json, key: string): (r: Result<int, SchemaError>)
    ensures r.Success? <==> j.JObj? && key in j.fields && j.fields[key].JInt?
    ensures r.Success? ==> IntAt(j, key, r.value)
  {
    if !j.JObj? then Failure(NotAnObject(key))
    else if key !in j.fields then Failure(MissingKey(key))
    else if j.fields[key].JInt? then Success(j.fields[key].n)
    else Failure(WrongType(key))
  }

  function BoolMember(j: Json, key: string): (r: Result<bool, SchemaError>)
    ensures r.Success? <==> j.JObj? && key in j.fields && j.fields[key].JBool?
    ensures r.Success? ==> BoolAt(j, key, r.value)
  {
    if !j.JObj? then Failure(NotAnObject(key))
    else if key !in j.fields then Failure(MissingKey(key))
    else if j.fields[key].JBool? then Success(j.fields[key].b)
    else Failure(WrongType(key))
  }

  function StrMember(j: Json, key: string): (r: Result<string, SchemaError>)
    ensures r.Success? <==> j.JObj? && key in j.fields && j.fields[key].JStr?
    ensures r.Success? ==> StrAt(j, key, r.value)
  {
    if !j.JObj? then Failure(NotAnObject(key))
    else if key !in j.fields then Failure(MissingKey(key))
    else if j.fields[key].JStr? then Success(j.fields[key].s)
    else Failure(WrongType(key))
  }

  function ArrMember(j: Json, key: string): (r: Result<seq<Json>, SchemaError>)
    ensures r.Success? <==> j.JObj? && key in j.fields && j.fields[key].JArr?
    ensures r.Success? ==> r.value == j.fields[key].items
  {
    if !j.JObj? then Failure(NotAnObject(key))
    else if key !in j.fields then Failure(MissingKey(key))
    else if j.fields[key].JArr? then Success(j.fields[key].items)
    else Failure(WrongType(key))
  }
}
