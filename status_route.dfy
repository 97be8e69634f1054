/**
 * The `/api/status` route (`app/api/status/route.ts`): it forwards to the
 * backend's `/status`, adds service flags read from the backend's
 * `/health`, and answers with a fixed body when the backend cannot be
 * reached.
 *
 * What both fetches gave is a parameter; the route's answer is its HTTP
 * status and the JSON object it serialises.
 */
module StatusRoute {
  import opened Wrappers
  import opened Text
  import opened Dicts
  import opened Json
  import opened Http

  // ---------------------------------------------------------------------------
  // Health flags
  // ---------------------------------------------------------------------------

  /**
   * A service flag: `c?.status === 'up' || (c && c?.status !== 'down')`
   * for the component entry `c`; `None` is `undefined`.
   */
  function ServiceFlag(component: Option<Json>): Option<Json> {
    var status := MemberOf(component, "status");
    if status == Some(Str("up")) then Some(Bool(true))
    else if component.None? then None
    else if !Truthy(component.value) then component
    else Some(Bool(status != Some(Str("down"))))
  }

  /**
   * A service counts as working exactly when its component entry exists and
   * its status is not `down`; a missing entry leaves the flag `undefined`,
   * and an entry that is present but falsy (such as `null`) is passed on as
   * the flag.
   */
  lemma ServiceFlagMeaning(component: Option<Json>)
    ensures component.None? ==> ServiceFlag(component).None?
    ensures component.Some? && Truthy(component.value) ==>
      ServiceFlag(component) == Some(Bool(Member(component.value, "status") != Some(Str("down"))))
    ensures component.Some? && !Truthy(component.value) ==> ServiceFlag(component) == component
    ensures TruthyOpt(ServiceFlag(component)) <==>
      TruthyOpt(component) && MemberOf(component, "status") != Some(Str("down"))
  {
  }

  /** `neo4j_status`: true only when the component's status is exactly `up`. */
  function Neo4jFlag(component: Option<Json>): (flag: Json)
    ensures flag == Bool(true) <==> MemberOf(component, "status") == Some(Str("up"))
    ensures flag.Bool?
  {
    Bool(MemberOf(component, "status") == Some(Str("up")))
  }

  /** The keys the health data sets, in order. */
  const HealthKeys: seq<string> := [
    "github_status", "huggingface_status", "neo4j_status", "openai_status",
    "dataset_count", "cache_size", "active_tasks", "total_tasks"
  ]

  /**
   * `healthData` from an ok `/health` body. Reading a `null` body throws,
   * which leaves `healthData` as `{}`.
   */
  function HealthData(health: Json): (d: Dict<Option<Json>>)
    ensures health == Null ==> d == []
    ensures health != Null ==> Keys(d) == HealthKeys
  {
    if health == Null then []
    else
      var components := Member(health, "components");
      var data := Member(health, "data");
      [ ("github_status", ServiceFlag(MemberOf(components, "github_api"))),
        ("huggingface_status", ServiceFlag(MemberOf(components, "huggingface_api"))),
        ("neo4j_status", Some(Neo4jFlag(MemberOf(components, "neo4j")))),
        ("openai_status", ServiceFlag(MemberOf(components, "openai_api"))),
        ("dataset_count", Some(Num(0))),
        ("cache_size", Some(Str("0 MB"))),
        ("active_tasks", Some(OrElse(MemberOf(data, "active_tasks"), Num(0)))),
        ("total_tasks", Some(OrElse(MemberOf(data, "total_tasks"), Num(0)))) ]
  }

  /** No two health keys are the same: their first letters differ. */
  lemma HealthKeysUnique()
    ensures forall i, j :: 0 <= i < j < |HealthKeys| ==> HealthKeys[i] != HealthKeys[j]
  {
    forall i, j | 0 <= i < j < |HealthKeys| ensures HealthKeys[i] != HealthKeys[j] {
      assert HealthKeys[i][0] != HealthKeys[j][0];
    }
  }

  /** The health data's fixed and defaulted fields. */
  lemma HealthDataFields(health: Json)
    requires health != Null
    ensures UniqueKeys(HealthData(health))
    ensures Lookup(HealthData(health), "dataset_count") == Some(Some(Num(0)))
    ensures Lookup(HealthData(health), "cache_size") == Some(Some(Str("0 MB")))
    ensures Lookup(HealthData(health), "active_tasks")
      == Some(Some(OrElse(MemberOf(Member(health, "data"), "active_tasks"), Num(0))))
    ensures Lookup(HealthData(health), "total_tasks")
      == Some(Some(OrElse(MemberOf(Member(health, "data"), "total_tasks"), Num(0))))
  {
    HealthDataUnique(health);
    HealthEntry(health, 4);
    HealthEntry(health, 5);
    HealthEntry(health, 6);
    HealthEntry(health, 7);
  }

  /** The health data sets each of its keys once. */
  lemma HealthDataUnique(health: Json)
    requires health != Null
    ensures UniqueKeys(HealthData(health))
  {
    var d := HealthData(health);
    HealthKeysUnique();
    forall i, j | 0 <= i < j < |d| ensures d[i].0 != d[j].0 {
      assert d[i].0 == HealthKeys[i] && d[j].0 == HealthKeys[j];
    }
  }

  /** Each health key looks up its own entry. */
  lemma HealthEntry(health: Json, i: nat)
    requires health != Null && i < |HealthKeys|
    ensures Lookup(HealthData(health), HealthKeys[i]) == Some(HealthData(health)[i].1)
  {
    var d := HealthData(health);
    HealthDataUnique(health);
    assert d[i].0 == HealthKeys[i];
    LookupAt(d, i);
  }

  /** What the `/health` fetch gave. */
  datatype HealthOutcome = HealthThrew | HealthResponded(ok: bool, body: Body)

  /** The health data the route merges: `{}` unless the health check answered ok with a body. */
  function HealthFrom(outcome: HealthOutcome): Dict<Option<Json>> {
    match outcome
    case HealthResponded(ok, body) => if ok && body.Parsed? then HealthData(body.value) else []
    case HealthThrew => []
  }

  // ---------------------------------------------------------------------------
  // The route
  // ---------------------------------------------------------------------------

  /** The route's answer: its HTTP status and the object it serialises. */
  datatype RouteResponse = RouteResponse(status: int, body: Json)

  /** The answer when the backend cannot be reached or its status body cannot be read. */
  const Fallback: Json := Obj([
    ("success", Bool(true)),
    ("message", Str("API server is running but health check failed")),
    ("status", Str("running")),
    ("version", Str("unknown")),
    ("github_status", Bool(true)),
    ("huggingface_status", Bool(true)),
    ("neo4j_status", Bool(false)),
    ("openai_status", Bool(true)),
    ("dataset_count", Num(0)),
    ("cache_size", Str("0 MB")),
    ("active_tasks", Num(0)),
    ("total_tasks", Num(0))
  ])

  /** The fallback reports success, Neo4j down and the other services up. */
  lemma FallbackFlags()
    ensures Member(Fallback, "success") == Some(Bool(true))
    ensures Member(Fallback, "neo4j_status") == Some(Bool(false))
    ensures Member(Fallback, "github_status") == Some(Bool(true))
    ensures Member(Fallback, "huggingface_status") == Some(Bool(true))
    ensures Member(Fallback, "openai_status") == Some(Bool(true))
  {
    FallbackEntry(0);
    FallbackEntry(4);
    FallbackEntry(5);
    FallbackEntry(6);
    FallbackEntry(7);
  }

  /** The first entry and the four service flags are what their keys look up. */
  lemma FallbackEntry(i: nat)
    requires i == 0 || 4 <= i < 8
    ensures Member(Fallback, Fallback.members[i].0) == Some(Fallback.members[i].1)
  {
    var d := Fallback.members;
    assert Keys(d)[..8] == ["success", "message", "status", "version",
                            "github_status", "huggingface_status", "neo4j_status", "openai_status"];
    forall j | 0 <= j < i ensures d[j].0 != d[i].0 {
      assert Keys(d)[j][0] != Keys(d)[i][0];
    }
    LookupAt(d, i);
  }

  /** The own enumerable properties `{...v}` copies: an object's members, an array's or string's indexed elements. */
  function SpreadSource(v: Json): Dict<Json> {
    match v
    case Obj(members) => members
    case Arr(elems) => seq(|elems|, i requires 0 <= i < |elems| => (NatToString(i), elems[i]))
    case Str(s) => seq(|s|, i requires 0 <= i < |s| => (NatToString(i), Str([s[i]])))
    case _ => []
  }

  /** `{...data, ...healthData}` as serialised. */
  function Enhanced(data: Json, health: Dict<Option<Json>>): Json {
    Obj(Stringified(Spread(Lift(SpreadSource(data)), health)))
  }

  /** `GET`. */
  function Get(status: FetchResult, health: HealthOutcome): (r: RouteResponse)
    ensures status.Responded? && !status.ok ==> r.status == status.status
    ensures !(status.Responded? && !status.ok) ==> r.status == 200
    ensures status.Threw? || (status.ok && status.body.Unparsable?) ==> r.body == Fallback
  {
    match status
    case Threw(_) => RouteResponse(200, Fallback)
    case Responded(ok, code, statusText, body) =>
      if !ok then
        RouteResponse(code, Obj([
          ("success", Bool(false)),
          ("message", Str("Error: " + IntToString(code) + " " + statusText))]))
      else match body
        case Parsed(data) => RouteResponse(200, Enhanced(data, HealthFrom(health)))
        case Unparsable(_) => RouteResponse(200, Fallback)
  }

  /** A non-ok backend status is mirrored, with a failure body naming it. */
  lemma NonOkMirrored(status: FetchResult, health: HealthOutcome)
    requires status.Responded? && !status.ok
    ensures Get(status, health).status == status.status
    ensures Member(Get(status, health).body, "success") == Some(Bool(false))
    ensures Member(Get(status, health).body, "message")
      == Some(Str("Error: " + IntToString(status.status) + " " + status.statusText))
  {
    var d := Get(status, health).body.members;
    assert d[0].0[0] != d[1].0[0];
    LookupAt(d, 0);
    LookupAt(d, 1);
  }

  /** Without health data the status object is answered unchanged. */
  lemma NoHealthUnchanged(data: Dict<Json>, health: HealthOutcome)
    requires HealthFrom(health) == []
    ensures Get(Responded(true, 200, "OK", Parsed(Obj(data))), health).body == Obj(data)
  {
    StringifiedLift(data);
  }

  /** The health check adds nothing when it fails, answers non-ok, or its body cannot be read. */
  lemma HealthFailureAddsNothing(health: HealthOutcome)
    requires health.HealthThrew? || !health.ok || health.body.Unparsable? || health.body == Parsed(Null)
    ensures HealthFrom(health) == []
  {
  }

  /**
   * In a merged answer a key the spread object sets takes its value, or
   * disappears when that value is `undefined`; every other key keeps the
   * status object's value.
   */
  lemma SpreadThenStringify(data: Dict<Json>, extra: Dict<Option<Json>>, k: string)
    requires UniqueKeys(data) && UniqueKeys(extra)
    ensures Lookup(Stringified(Spread(Lift(data), extra)), k) ==
      if k in Keys(extra) then Lookup(extra, k).value else Lookup(data, k)
  {
    var lifted := Lift(data);
    assert UniqueKeys(lifted) by {
      forall i, j | 0 <= i < j < |lifted| ensures lifted[i].0 != lifted[j].0 {
        assert lifted[i].0 == data[i].0 && lifted[j].0 == data[j].0;
      }
    }
    SpreadUnique(lifted, extra);
    StringifiedLookup(Spread(lifted, extra), k);
    SpreadLookup(lifted, extra, k);
    LiftLookup(data, k);
  }

  /**
   * In the answer, the health keys take the health data's values (a key
   * whose value is `undefined` disappears) and every other key keeps the
   * status object's value.
   */
  lemma MergedLookup(data: Dict<Json>, health: Json, k: string)
    requires UniqueKeys(data) && health != Null
    ensures Lookup(Enhanced(Obj(data), HealthData(health)).members, k) ==
      if k in HealthKeys then Lookup(HealthData(health), k).value else Lookup(data, k)
  {
    HealthDataFields(health);
    SpreadThenStringify(data, HealthData(health), k);
  }

  /** A lookup in the lifted object. */
  lemma {:induction false} LiftLookup(data: Dict<Json>, k: string)
    ensures Lookup(Lift(data), k) == if Lookup(data, k).Some? then Some(Lookup(data, k)) else None
    decreases |data|
  {
    if data != [] {
      assert Lift(data)[1..] == Lift(data[1..]);
      LiftLookup(data[1..], k);
    }
  }

  /**
   * When the health data has no entry for GitHub, `github_status` is
   * missing from the answer, even if the status object had one.
   */
  lemma MissingComponentDropsFlag(data: Dict<Json>, health: Json)
    requires UniqueKeys(data) && health != Null
    requires MemberOf(Member(health, "components"), "github_api").None?
    ensures Lookup(Enhanced(Obj(data), HealthData(health)).members, "github_status").None?
  {
    MergedLookup(data, health, "github_status");
  }
}
