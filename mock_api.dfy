/**
 * The entry point of the browser workflow engine (frontend/src/api/mockApi.ts):
 * `mockRequest` loads the store, routes the request to a handler by method and
 * path, saves the store whatever the outcome, and answers with the handler's
 * result or error. The store lives in a module variable and, in a browser, is
 * also persisted as JSON under one local-storage key.
 */
module MockApi {
  import opened Wrappers
  import opened MockTypes
  import opened Text
  import MockHandlers
  import MockStore

  // ---------------------------------------------------------------- routing

  /** The endpoints `mockRequest` serves, with the ids their paths carry. */
  datatype Route =
    | ListRequirementsRoute
    | CreateRequirementRoute
    | GetRequirementRoute(requirementId: nat)
    | ScoutRoute(requirementId: nat)
    | CreateSampleRoute
    | ReviewRoute(sampleId: nat)
    | ShortlistRoute(requirementId: nat)
    | OnboardRoute(supplierId: nat)
    | Unrouted

  /**
   * `routeMatch(url, /^prefix(\d+)suffix$/)` followed by `Number(...)` on the
   * captured group: the decimal value of the digits between prefix and suffix.
   */
  function MatchId(url: string, prefix: string, suffix: string): (r: Option<nat>)
    ensures r.Some? ==> |url| > |prefix| + |suffix| && url[..|prefix|] == prefix
    ensures r.Some? ==> url[|url| - |suffix|..] == suffix
  {
    if |url| > |prefix| + |suffix| && url[..|prefix|] == prefix && url[|url| - |suffix|..] == suffix
       && AllDigits(url[|prefix|..|url| - |suffix|])
    then Some(DigitsValue(url[|prefix|..|url| - |suffix|]))
    else None
  }

  /** A path built from digits matches, and yields the digits' value. */
  lemma MatchIdOfDigits(prefix: string, digits: string, suffix: string)
    requires AllDigits(digits)
    ensures MatchId(prefix + digits + suffix, prefix, suffix) == Some(DigitsValue(digits))
  {
    var url := prefix + digits + suffix;
    assert url[..|prefix|] == prefix;
    assert url[|url| - |suffix|..] == suffix;
    assert url[|prefix|..|url| - |suffix|] == digits;
  }

  /** Only such paths match: the url is the prefix, some digits and the suffix. */
  lemma MatchIdOnlyDigits(url: string, prefix: string, suffix: string) returns (digits: string)
    requires MatchId(url, prefix, suffix).Some?
    ensures AllDigits(digits) && url == prefix + digits + suffix
    ensures MatchId(url, prefix, suffix).value == DigitsValue(digits)
  {
    digits := url[|prefix|..|url| - |suffix|];
    assert url == url[..|prefix|] + digits + url[|url| - |suffix|..];
  }

  /** The route `mockRequest` takes, tested in its order; methods are compared as given. */
  function RouteOf(verb: string, url: string): Route {
    if verb == "get" && url == "/requirements" then ListRequirementsRoute
    else if verb == "post" && url == "/requirements" then CreateRequirementRoute
    else if verb == "get" && MatchId(url, "/requirements/", "").Some? then
      GetRequirementRoute(MatchId(url, "/requirements/", "").value)
    else if verb == "post" && MatchId(url, "/requirements/", "/scout").Some? then
      ScoutRoute(MatchId(url, "/requirements/", "/scout").value)
    else if verb == "post" && url == "/samples" then CreateSampleRoute
    else if verb == "post" && MatchId(url, "/samples/", "/quality-review").Some? then
      ReviewRoute(MatchId(url, "/samples/", "/quality-review").value)
    else if verb == "post" && MatchId(url, "/requirements/", "/shortlist").Some? then
      ShortlistRoute(MatchId(url, "/requirements/", "/shortlist").value)
    else if verb == "post" && MatchId(url, "/suppliers/", "/onboard").Some? then
      OnboardRoute(MatchId(url, "/suppliers/", "/onboard").value)
    else Unrouted
  }

  /** The method and path a client uses for a route (ids printed in decimal). */
  function RequestLine(route: Route): (line: (string, string))
    requires !route.Unrouted?
  {
    match route
    case ListRequirementsRoute => ("get", "/requirements")
    case CreateRequirementRoute => ("post", "/requirements")
    case GetRequirementRoute(id) => ("get", "/requirements/" + NatToString(id))
    case ScoutRoute(id) => ("post", "/requirements/" + NatToString(id) + "/scout")
    case CreateSampleRoute => ("post", "/samples")
    case ReviewRoute(id) => ("post", "/samples/" + NatToString(id) + "/quality-review")
    case ShortlistRoute(id) => ("post", "/requirements/" + NatToString(id) + "/shortlist")
    case OnboardRoute(id) => ("post", "/suppliers/" + NatToString(id) + "/onboard")
  }

  /** A url that differs from the prefix at some position does not match. */
  lemma PrefixMismatch(url: string, prefix: string, suffix: string, i: nat)
    requires i < |prefix| && i < |url| && url[i] != prefix[i]
    ensures MatchId(url, prefix, suffix).None?
  {
    if |prefix| <= |url| {
      assert url[..|prefix|][i] == url[i];
    }
  }

  /** A url that differs from the suffix at some position does not match. */
  lemma SuffixMismatch(url: string, prefix: string, suffix: string, i: nat)
    requires i < |suffix| <= |url| && url[|url| - |suffix| + i] != suffix[i]
    ensures MatchId(url, prefix, suffix).None?
  {
    assert url[|url| - |suffix|..][i] == url[|url| - |suffix| + i];
  }

  lemma GetRequirementLine(id: nat)
    ensures RouteOf("get", "/requirements/" + NatToString(id)) == GetRequirementRoute(id)
  {
    var d := NatToString(id);
    DigitsValueOfNatToString(id);
    MatchIdOfDigits("/requirements/", d, "");
    assert "/requirements/" + d + "" == "/requirements/" + d;
  }

  lemma ScoutLine(id: nat)
    ensures RouteOf("post", "/requirements/" + NatToString(id) + "/scout") == ScoutRoute(id)
  {
    var d := NatToString(id);
    DigitsValueOfNatToString(id);
    MatchIdOfDigits("/requirements/", d, "/scout");
  }

  lemma ReviewLine(id: nat)
    ensures RouteOf("post", "/samples/" + NatToString(id) + "/quality-review") == ReviewRoute(id)
  {
    var d := NatToString(id);
    var url := "/samples/" + d + "/quality-review";
    DigitsValueOfNatToString(id);
    MatchIdOfDigits("/samples/", d, "/quality-review");
    PrefixMismatch(url, "/requirements/", "/scout", 1);
    assert url != "/requirements" by { assert url[1] != "/requirements"[1]; }
  }

  lemma ShortlistLine(id: nat)
    ensures RouteOf("post", "/requirements/" + NatToString(id) + "/shortlist") == ShortlistRoute(id)
  {
    var d := NatToString(id);
    var url := "/requirements/" + d + "/shortlist";
    DigitsValueOfNatToString(id);
    MatchIdOfDigits("/requirements/", d, "/shortlist");
    SuffixMismatch(url, "/requirements/", "/scout", 0);
    PrefixMismatch(url, "/samples/", "/quality-review", 2);
    assert url != "/samples" by { assert url[1] != "/samples"[1]; }
  }

  lemma OnboardLine(id: nat)
    ensures RouteOf("post", "/suppliers/" + NatToString(id) + "/onboard") == OnboardRoute(id)
  {
    var d := NatToString(id);
    var url := "/suppliers/" + d + "/onboard";
    DigitsValueOfNatToString(id);
    MatchIdOfDigits("/suppliers/", d, "/onboard");
    PrefixMismatch(url, "/requirements/", "/scout", 1);
    PrefixMismatch(url, "/requirements/", "/shortlist", 1);
    PrefixMismatch(url, "/samples/", "/quality-review", 2);
    assert url != "/requirements" by { assert url[1] != "/requirements"[1]; }
    assert url != "/samples" by { assert url[2] != "/samples"[2]; }
  }

  /** Every endpoint is reached by its own request line: no earlier pattern shadows it. */
  lemma RouteOfRequestLine(route: Route)
    requires !route.Unrouted?
    ensures RouteOf(RequestLine(route).0, RequestLine(route).1) == route
  {
    match route
    case ListRequirementsRoute =>
    case CreateRequirementRoute =>
    case GetRequirementRoute(id) => GetRequirementLine(id);
    case ScoutRoute(id) => ScoutLine(id);
    case CreateSampleRoute =>
    case ReviewRoute(id) => ReviewLine(id);
    case ShortlistRoute(id) => ShortlistLine(id);
    case OnboardRoute(id) => OnboardLine(id);
  }

  /** Only `get` and `post` requests are routed. */
  lemma RoutedMethods(verb: string, url: string)
    ensures !RouteOf(verb, url).Unrouted? ==> verb == "get" || verb == "post"
  {
  }

  /** The error for a request no route takes. */
  function NotImplemented(verb: string, url: string): (e: ApiError)
    ensures e.status == 501
    ensures Contains(e.message, Upper(verb)) && Contains(e.message, url)
  {
    var prefix := "Mock endpoint not implemented for ";
    var message := prefix + Upper(verb) + " " + url;
    assert OccursAt(message, Upper(verb), |prefix|);
    assert OccursAt(message, url, |prefix| + |Upper(verb)| + 1);
    ApiError(501, message)
  }

  // ------------------------------------------------------------- dispatch

  /**
   * What one request may consult besides the store: the random draw and the clock
   * readings of its handler, and whether the browser's storage fails on reading or
   * on writing.
   */
  datatype Env = Env(draw: real, clock: Clock, readFails: bool, writeFails: bool)

  predicate EnvOk(env: Env) {
    0.0 <= env.draw < 1.0
  }

  /** The handler `route` names, run on the loaded store `v`. */
  function Handle(v: StateValue, route: Route, verb: string, url: string, body: Body, env: Env): MockHandlers.Outcome
    requires EnvOk(env)
  {
    match route
    case ListRequirementsRoute => MockHandlers.Outcome(v, Ok(RequirementList(MockHandlers.ListRequirements(v))))
    case CreateRequirementRoute => MockHandlers.CreateRequirement(v, body, env.clock)
    case GetRequirementRoute(id) => MockHandlers.Outcome(v, MockHandlers.GetRequirement(v, id))
    case ScoutRoute(id) => MockHandlers.StartScouting(v, id, env.draw, env.clock)
    case CreateSampleRoute => MockHandlers.CreateSample(v, body, env.draw, env.clock)
    case ReviewRoute(id) => MockHandlers.ReviewQuality(v, id, body, env.clock)
    case ShortlistRoute(id) => MockHandlers.CreateShortlist(v, id, env.clock)
    case OnboardRoute(id) => MockHandlers.OnboardSupplier(v, id, env.clock)
    case Unrouted => MockHandlers.Outcome(v, Err(NotImplemented(verb, url)))
  }

  /** The handler a request reaches, run on the loaded store `v`. */
  function Serve(v: StateValue, verb: string, url: string, body: Body, env: Env): MockHandlers.Outcome
    requires EnvOk(env)
  {
    Handle(v, RouteOf(verb, url), verb, url, body, env)
  }

  /** Serving keeps a valid store valid, whatever the request. */
  lemma ServeKeepsValid(v: StateValue, verb: string, url: string, body: Body, env: Env)
    requires EnvOk(env) && MockHandlers.ValidValue(v)
    ensures MockHandlers.ValidValue(Serve(v, verb, url, body, env).state)
  {
    HandleKeepsValid(v, RouteOf(verb, url), verb, url, body, env);
  }

  /** Every handler keeps a valid store valid. */
  lemma HandleKeepsValid(v: StateValue, route: Route, verb: string, url: string, body: Body, env: Env)
    requires EnvOk(env) && MockHandlers.ValidValue(v)
    ensures MockHandlers.ValidValue(Handle(v, route, verb, url, body, env).state)
  {
    match route
    case ScoutRoute(id) => MockHandlers.StartScoutingKeepsValid(v, id, env.draw, env.clock);
    case CreateSampleRoute => MockHandlers.CreateSampleKeepsValid(v, body, env.draw, env.clock);
    case ReviewRoute(id) => MockHandlers.ReviewQualityKeepsValid(v, id, body, env.clock);
    case ShortlistRoute(id) => MockHandlers.CreateShortlistKeepsValid(v, id, env.clock);
    case OnboardRoute(id) => MockHandlers.OnboardSupplierKeepsValid(v, id, env.clock);
    case _ =>
  }

  /** A request that fails leaves the store as it was loaded, which is what the catch branch saves. */
  lemma FailedRequestChangesNothing(v: StateValue, verb: string, url: string, body: Body, env: Env)
    requires EnvOk(env) && Serve(v, verb, url, body, env).result.Err?
    ensures Serve(v, verb, url, body, env).state == v
  {
  }

  /** `get` requests only read the store. */
  lemma GetRequestsOnlyRead(v: StateValue, url: string, body: Body, env: Env)
    requires EnvOk(env)
    ensures Serve(v, "get", url, body, env).state == v
  {
  }

  /** Anything but the eight endpoints is a 501, and the store is unchanged. */
  lemma UnroutedIsNotImplemented(v: StateValue, verb: string, url: string, body: Body, env: Env)
    requires EnvOk(env) && RouteOf(verb, url).Unrouted?
    ensures Serve(v, verb, url, body, env) == MockHandlers.Outcome(v, Err(NotImplemented(verb, url)))
    ensures Serve(v, verb, url, body, env).result.error.status == 501
  {
  }

  // ------------------------------------------------------------ persistence

  /**
   * What `JSON.parse` of the stored text yields, as far as the spread over the empty
   * store reads it: each of the four top-level members, when present.
   */
  datatype PartialState = PartialState(
    nextRequirementId: Option<int>,
    nextSupplierId: Option<int>,
    nextSampleId: Option<int>,
    requirements: Option<map<int, Requirement>>)

  /** The local-storage entry: absent or empty, not valid JSON, or a parsed object. */
  datatype Slot = NoItem | Unparseable | Stored(partial: PartialState)

  /** `{ ...createEmptyState(), ...parsed }`: members present in the parsed object win. */
  function Restore(p: PartialState): (v: StateValue)
    ensures p.nextRequirementId.None? ==> v.nextRequirementId == 1
    ensures p.nextSupplierId.None? ==> v.nextSupplierId == 1
    ensures p.nextSampleId.None? ==> v.nextSampleId == 1
    ensures p.requirements.None? ==> v.requirements == map[]
  {
    var e := EmptyState();
    StateValue(
      if p.nextRequirementId.Some? then p.nextRequirementId.value else e.nextRequirementId,
      if p.nextSupplierId.Some? then p.nextSupplierId.value else e.nextSupplierId,
      if p.nextSampleId.Some? then p.nextSampleId.value else e.nextSampleId,
      if p.requirements.Some? then p.requirements.value else e.requirements)
  }

  /** `JSON.stringify` of a whole store, as read back: every member present. */
  function Serialize(v: StateValue): (p: PartialState)
    ensures p.nextRequirementId.Some? && p.nextSupplierId.Some? && p.nextSampleId.Some? && p.requirements.Some?
  {
    PartialState(Some(v.nextRequirementId), Some(v.nextSupplierId), Some(v.nextSampleId), Some(v.requirements))
  }

  /** Restoring what was serialized gives the store back. */
  lemma RestoreSerialize(v: StateValue)
    ensures Restore(Serialize(v)) == v
  {
  }

  /** Restoring an object with none of the members gives the empty store. */
  lemma RestoreNothing()
    ensures Restore(PartialState(None, None, None, None)) == EmptyState()
  {
  }

  /**
   * `loadState`: outside a browser, the store in memory; in a browser, the store in
   * memory when nothing is stored, the restored store when the entry parses, and a
   * fresh empty store when reading or parsing fails.
   */
  function Loaded(isBrowser: bool, memory: StateValue, slot: Slot, readFails: bool): (v: StateValue)
    ensures !isBrowser ==> v == memory
    ensures isBrowser && (readFails || slot.Unparseable?) ==> v == EmptyState()
    ensures isBrowser && !readFails && slot.NoItem? ==> v == memory
    ensures isBrowser && !readFails && slot.Stored? ==> v == Restore(slot.partial)
  {
    if !isBrowser then memory
    else if readFails then EmptyState()
    else match slot
      case NoItem => memory
      case Unparseable => EmptyState()
      case Stored(p) => Restore(p)
  }

  /** A store that was saved to a working storage is loaded back unchanged. */
  lemma SavedStoreLoadsBack(memory: StateValue, v: StateValue)
    ensures Loaded(true, memory, Stored(Serialize(v)), false) == v
  {
    RestoreSerialize(v);
  }

  /** A storage entry whose restored store is valid (absent and unreadable entries are harmless). */
  predicate SlotValid(slot: Slot) {
    slot.Stored? ==> MockHandlers.ValidValue(Restore(slot.partial))
  }

  /** Loading from a valid memory and a valid entry gives a valid store. */
  lemma LoadedIsValid(isBrowser: bool, memory: StateValue, slot: Slot, readFails: bool)
    requires MockHandlers.ValidValue(memory) && SlotValid(slot)
    ensures MockHandlers.ValidValue(Loaded(isBrowser, memory, slot, readFails))
  {
    MockHandlers.EmptyStateIsValid();
  }

  /** The storage after `saveState(v)`: written unless not in a browser or the write fails. */
  function Saved(isBrowser: bool, slot: Slot, v: StateValue, writeFails: bool): (slot': Slot)
    ensures isBrowser && !writeFails ==> slot'.Stored? && Restore(slot'.partial) == v
    ensures !isBrowser || writeFails ==> slot' == slot
  {
    if isBrowser && !writeFails then Stored(Serialize(v)) else slot
  }

  /** The result of one request and where it leaves the memory and the storage. */
  datatype Answer = Answer(result: Result<Response, ApiError>, memory: StateValue, slot: Slot)

  /** `mockRequest` as a whole: load, serve, save (on success and on failure alike). */
  function Request(isBrowser: bool, memory: StateValue, slot: Slot,
                   verb: string, url: string, body: Body, env: Env): (a: Answer)
    requires EnvOk(env)
  {
    var o := Serve(Loaded(isBrowser, memory, slot, env.readFails), verb, url, body, env);
    Answer(o.result, o.state, Saved(isBrowser, slot, o.state, env.writeFails))
  }

  /** Requests keep the memory and the storage valid. */
  lemma RequestKeepsValid(isBrowser: bool, memory: StateValue, slot: Slot,
                          verb: string, url: string, body: Body, env: Env)
    requires EnvOk(env) && MockHandlers.ValidValue(memory) && SlotValid(slot)
    ensures MockHandlers.ValidValue(Request(isBrowser, memory, slot, verb, url, body, env).memory)
    ensures SlotValid(Request(isBrowser, memory, slot, verb, url, body, env).slot)
  {
    var v := Loaded(isBrowser, memory, slot, env.readFails);
    LoadedIsValid(isBrowser, memory, slot, env.readFails);
    ServeKeepsValid(v, verb, url, body, env);
  }

  /** In a browser whose storage works, memory and storage agree after every request. */
  lemma StorageMirrorsMemory(memory: StateValue, slot: Slot, verb: string, url: string, body: Body, env: Env)
    requires EnvOk(env) && !env.writeFails
    ensures var a := Request(true, memory, slot, verb, url, body, env);
      a.slot.Stored? && Restore(a.slot.partial) == a.memory
  {
  }

  // ------------------------------------------------------------- the server

  /**
   * The module-level state of mockApi.ts: whether it runs in a browser, the
   * `memoryState` variable, and the local-storage entry.
   */
  class MockServer {
    const isBrowser: bool
    var memoryState: StateValue
    var storage: Slot

    predicate Valid()
      reads this
    {
      MockHandlers.ValidValue(memoryState) && SlotValid(storage)
    }

    /** Module start-up: `memoryState` starts as `createEmptyState()`. */
    constructor (browser: bool, slot: Slot)
      ensures isBrowser == browser && memoryState == EmptyState() && storage == slot
      ensures SlotValid(slot) ==> Valid()
    {
      isBrowser := browser;
      memoryState := EmptyState();
      storage := slot;
      new;
      MockHandlers.EmptyStateIsValid();
    }

    /** `loadState`: a store object for one request; `memoryState` follows what was loaded. */
    method LoadState(readFails: bool) returns (state: MockStore.MockState)
      modifies this
      ensures fresh(state)
      ensures state.Value() == Loaded(isBrowser, old(memoryState), storage, readFails)
      ensures memoryState == state.Value() && storage == old(storage)
    {
      if !isBrowser {
        state := new MockStore.MockState.FromValue(memoryState);
        return;
      }
      if readFails || storage.Unparseable? {
        memoryState := EmptyState();
      } else if storage.Stored? {
        memoryState := Restore(storage.partial);
      }
      state := new MockStore.MockState.FromValue(memoryState);
    }

    /** `saveState`: `memoryState` takes a copy; a browser also writes it to storage. */
    method SaveState(state: MockStore.MockState, writeFails: bool)
      modifies this
      ensures memoryState == state.Value()
      ensures storage == Saved(isBrowser, old(storage), state.Value(), writeFails)
    {
      memoryState := state.Value();
      if isBrowser && !writeFails {
        storage := Stored(Serialize(memoryState));
      }
    }

    /** The routing part of `mockRequest`: the handler the request reaches, run on `state`. */
    method Dispatch(state: MockStore.MockState, verb: string, url: string, body: Body, env: Env)
      returns (r: Result<Response, ApiError>)
      requires EnvOk(env)
      modifies state
      ensures MockHandlers.Outcome(state.Value(), r) == Serve(old(state.Value()), verb, url, body, env)
    {
      var route := RouteOf(verb, url);
      r := RunHandler(state, route, verb, url, body, env);
    }

    /** The handler `route` names, run on `state`. */
    method RunHandler(state: MockStore.MockState, route: Route, verb: string, url: string, body: Body, env: Env)
      returns (r: Result<Response, ApiError>)
      requires EnvOk(env)
      modifies state
      ensures MockHandlers.Outcome(state.Value(), r) == Handle(old(state.Value()), route, verb, url, body, env)
    {
      match route {
      case ListRequirementsRoute =>
        r := Ok(RequirementList(MockHandlers.ListRequirements(state.Value())));
      case CreateRequirementRoute =>
        r := state.CreateRequirement(body, env.clock);
      case GetRequirementRoute(id) =>
        r := MockHandlers.GetRequirement(state.Value(), id);
      case ScoutRoute(id) =>
        r := state.StartScouting(id, env.draw, env.clock);
      case CreateSampleRoute =>
        r := state.CreateSample(body, env.draw, env.clock);
      case ReviewRoute(id) =>
        r := state.ReviewQuality(id, body, env.clock);
      case ShortlistRoute(id) =>
        r := state.CreateShortlist(id, env.clock);
      case OnboardRoute(id) =>
        r := state.OnboardSupplier(id, env.clock);
      case Unrouted =>
        r := Err(NotImplemented(verb, url));
      }
    }

    /** `mockRequest`: load, route to a handler, save (after success and failure alike), answer. */
    method MockRequest(verb: string, url: string, body: Body, env: Env)
      returns (r: Result<Response, ApiError>)
      requires EnvOk(env)
      modifies this
      ensures Answer(r, memoryState, storage)
              == Request(isBrowser, old(memoryState), old(storage), verb, url, body, env)
      ensures old(Valid()) ==> Valid()
    {
      ghost var memory0 := memoryState;
      ghost var slot0 := storage;
      var state := LoadState(env.readFails);
      r := Dispatch(state, verb, url, body, env);
      SaveState(state, env.writeFails);
      if MockHandlers.ValidValue(memory0) && SlotValid(slot0) {
        RequestKeepsValid(isBrowser, memory0, slot0, verb, url, body, env);
      }
    }
  }
}
