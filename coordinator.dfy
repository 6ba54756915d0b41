/**
 * The coordinator (internal/coordinator/coordinator.go): it keeps the
 * registration tables, initialises modules with continue-on-error, routes
 * events overlay-first and pushes each tick's images to the device.
 *
 * Modules are abstract references. Everything a module answers (whether Init
 * or a handler fails, whether its overlay is active, which images it renders)
 * is a parameter of the step that asks. The device and the modules are seen
 * through a `Trace`: the images pushed to the device and the module calls made.
 */
module Coordination {
  import opened Wrappers
  import opened Geometry
  import opened Imaging
  import opened Resources
  import opened Events
  import Convert

  /** A registered module. `overlay` says whether its type has the overlay facet. */
  datatype ModuleRef = ModuleRef(handle: nat, overlay: bool)

  /** A call the coordinator makes into a module. */
  datatype Call =
    | InitCall(m: ModuleRef, res: Resources)
    | StopCall(m: ModuleRef)
    | KeyCall(m: ModuleRef, key: KeyId, keyEvent: KeyEvent)
    | OverlayKeyCall(m: ModuleRef, key: KeyId, keyEvent: KeyEvent)
    | DialCall(m: ModuleRef, dial: DialId, dialEvent: DialEvent)
    | OverlayDialCall(m: ModuleRef, dial: DialId, dialEvent: DialEvent)
    | StripTouchCall(m: ModuleRef, touch: TouchStripEvent)
    | OverlayStripTouchCall(m: ModuleRef, touch: TouchStripEvent)
    | RenderKeysCall(m: ModuleRef)
    | RenderOverlayKeysCall(m: ModuleRef)
    | RenderStripCall(m: ModuleRef)
    | RenderOverlayStripCall(m: ModuleRef)

  /** An image pushed to the device. */
  datatype Push = KeyImage(key: KeyId, img: Image) | StripImage(img: Image)

  /** One entry of a module's key-image map; the image may be nil. */
  type Rendered = (KeyId, Option<Image>)

  /** What the device received and what the modules were asked, in order. */
  class Trace {
    var pushed: seq<Push>
    var invoked: seq<Call>

    constructor ()
      ensures pushed == [] && invoked == []
    {
      pushed, invoked := [], [];
    }
  }

  // ---------------------------------------------------------------------
  // Specification functions

  /** `resourcesForModule`: the stored grant, or the zero grant. */
  function ResourceOf(table: map<ModuleRef, Resources>, m: ModuleRef): Resources {
    if m in table then table[m] else NoResources
  }

  /** The ownership table after every id in `ids` has been given to `m`. */
  function Claim(owners: map<Byte, ModuleRef>, ids: seq<Byte>, m: ModuleRef): (r: map<Byte, ModuleRef>)
    ensures forall id :: id in ids ==> id in r && r[id] == m
    ensures forall id :: id !in ids ==> (id in r <==> id in owners)
    ensures forall id :: id !in ids && id in owners ==> r[id] == owners[id]
  {
    if ids == [] then owners
    else
      var last := ids[|ids| - 1];
      Claim(owners, ids[..|ids| - 1], m)[last := m]
  }

  /** Claiming one more id is one more map update. */
  lemma ClaimStep(owners: map<Byte, ModuleRef>, ids: seq<Byte>, i: nat, m: ModuleRef)
    requires i < |ids|
    ensures Claim(owners, ids[..i + 1], m) == Claim(owners, ids[..i], m)[ids[i] := m]
  {
    assert ids[..i + 1] == ids[..i] + [ids[i]];
  }

  /** A module that can take the overlay: not failed, has the facet, reports active. */
  predicate Eligible(m: ModuleRef, failed: set<ModuleRef>, active: set<ModuleRef>) {
    m !in failed && m.overlay && m in active
  }

  /** `getActiveOverlay`: the first eligible module in registration order. */
  function FirstEligible(ms: seq<ModuleRef>, failed: set<ModuleRef>, active: set<ModuleRef>): Option<ModuleRef>
  {
    if ms == [] then None
    else if Eligible(ms[0], failed, active) then Some(ms[0])
    else FirstEligible(ms[1..], failed, active)
  }

  /** `routeStripEvent`'s choice: the first non-failed module with a strip region. */
  function FirstStripModule(ms: seq<ModuleRef>, failed: set<ModuleRef>, table: map<ModuleRef, Resources>): Option<ModuleRef>
  {
    if ms == [] then None
    else if ms[0] !in failed && ResourceOf(table, ms[0]).HasStrip() then Some(ms[0])
    else FirstStripModule(ms[1..], failed, table)
  }

  /** Where an event on a key or dial goes. */
  datatype Target = ToOverlay(m: ModuleRef) | ToOwner(m: ModuleRef) | Dropped

  function Route(overlay: Option<ModuleRef>, owners: map<Byte, ModuleRef>, id: Byte, failed: set<ModuleRef>): Target {
    if overlay.Some? then ToOverlay(overlay.value)
    else if id !in owners || owners[id] in failed then Dropped
    else ToOwner(owners[id])
  }

  /** A press sub-event, then the release sub-event unless the press failed. */
  function PressThenRelease(press: Call, release: Call, failing: set<Call>): (seq<Call>, bool) {
    if press in failing then ([press], true) else ([press, release], release in failing)
  }

  /** The calls a key press produces, and the handler's error. */
  function KeyCalls(t: Target, key: KeyId, duration: int, failing: set<Call>): (seq<Call>, bool) {
    match t
    case Dropped => ([], false)
    case ToOverlay(m) =>
      PressThenRelease(OverlayKeyCall(m, key, KeyEvent(true, 0)), OverlayKeyCall(m, key, KeyEvent(false, duration)), failing)
    case ToOwner(m) =>
      PressThenRelease(KeyCall(m, key, KeyEvent(true, 0)), KeyCall(m, key, KeyEvent(false, duration)), failing)
  }

  /** The calls a dial press produces, and the handler's error. */
  function DialSwitchCalls(t: Target, dial: DialId, duration: int, failing: set<Call>): (seq<Call>, bool) {
    var press := DialEvent(DialPress, 0, 0);
    var release := DialEvent(DialRelease, 0, duration);
    match t
    case Dropped => ([], false)
    case ToOverlay(m) =>
      PressThenRelease(OverlayDialCall(m, dial, press), OverlayDialCall(m, dial, release), failing)
    case ToOwner(m) =>
      PressThenRelease(DialCall(m, dial, press), DialCall(m, dial, release), failing)
  }

  /** The calls a dial rotation produces, and the handler's error. */
  function DialRotateCalls(t: Target, dial: DialId, delta: Int8, failing: set<Call>): (seq<Call>, bool) {
    match t
    case Dropped => ([], false)
    case ToOverlay(m) => ([OverlayDialCall(m, dial, Rotation(delta))], OverlayDialCall(m, dial, Rotation(delta)) in failing)
    case ToOwner(m) => ([DialCall(m, dial, Rotation(delta))], DialCall(m, dial, Rotation(delta)) in failing)
  }

  function InitCalls(ms: seq<ModuleRef>, table: map<ModuleRef, Resources>): seq<Call> {
    seq(|ms|, i requires 0 <= i < |ms| => InitCall(ms[i], ResourceOf(table, ms[i])))
  }

  function StopCalls(ms: seq<ModuleRef>): seq<Call> {
    seq(|ms|, i requires 0 <= i < |ms| => StopCall(ms[i]))
  }

  /** The modules of `ms` whose Init call fails. */
  function FailedInits(ms: seq<ModuleRef>, table: map<ModuleRef, Resources>, failing: set<Call>): set<ModuleRef> {
    set m | m in ms && InitCall(m, ResourceOf(table, m)) in failing
  }

  /** One more module adds its Init call at the end. */
  lemma InitCallsStep(ms: seq<ModuleRef>, i: nat, table: map<ModuleRef, Resources>)
    requires i < |ms|
    ensures InitCalls(ms[..i + 1], table) == InitCalls(ms[..i], table) + [InitCall(ms[i], ResourceOf(table, ms[i]))]
  {
  }

  /** One more module adds itself to the failed set exactly when its Init call fails. */
  lemma FailedInitsStep(ms: seq<ModuleRef>, i: nat, table: map<ModuleRef, Resources>, failing: set<Call>)
    requires i < |ms|
    ensures FailedInits(ms[..i + 1], table, failing)
            == FailedInits(ms[..i], table, failing) + (if InitCall(ms[i], ResourceOf(table, ms[i])) in failing then {ms[i]} else {})
  {
    assert ms[..i + 1] == ms[..i] + [ms[i]];
  }

  /** The pushes for the non-nil images of one key-image map, in its order. */
  function NonNil(rs: seq<Rendered>): seq<Push> {
    if rs == [] then []
    else
      var last := rs[|rs| - 1];
      NonNil(rs[..|rs| - 1]) + (if last.1.Some? then [KeyImage(last.0, last.1.value)] else [])
  }

  /** The eight blank images of `clearAllKeys`; none when the key size is unknown. */
  function Clears(keyRect: Option<Rect>): seq<Push> {
    if keyRect.None? then [] else seq(8, i requires 0 <= i < 8 => KeyImage(AllKeys[i], Black(keyRect.value)))
  }

  /** Normal key rendering: each non-failed module is asked, in order. */
  function RenderCalls(ms: seq<ModuleRef>, failed: set<ModuleRef>): seq<Call> {
    if ms == [] then []
    else RenderCalls(ms[..|ms| - 1], failed) + (if ms[|ms| - 1] in failed then [] else [RenderKeysCall(ms[|ms| - 1])])
  }

  function RenderPushes(ms: seq<ModuleRef>, failed: set<ModuleRef>, keysOf: ModuleRef -> seq<Rendered>): seq<Push> {
    if ms == [] then []
    else RenderPushes(ms[..|ms| - 1], failed, keysOf) + (if ms[|ms| - 1] in failed then [] else NonNil(keysOf(ms[|ms| - 1])))
  }

  predicate StripParticipant(m: ModuleRef, failed: set<ModuleRef>, table: map<ModuleRef, Resources>) {
    m !in failed && ResourceOf(table, m).HasStrip()
  }

  /** Strip rendering: each non-failed module with a strip region is asked, in order. */
  function StripCalls(ms: seq<ModuleRef>, failed: set<ModuleRef>, table: map<ModuleRef, Resources>): seq<Call> {
    if ms == [] then []
    else
      var last := ms[|ms| - 1];
      StripCalls(ms[..|ms| - 1], failed, table) + (if StripParticipant(last, failed, table) then [RenderStripCall(last)] else [])
  }

  /** The non-nil strip images, in registration order: later ones paint over earlier ones. */
  function StripLayers(ms: seq<ModuleRef>, failed: set<ModuleRef>, table: map<ModuleRef, Resources>,
                       stripOf: ModuleRef -> Option<Image>): seq<Image> {
    if ms == [] then []
    else
      var last := ms[|ms| - 1];
      StripLayers(ms[..|ms| - 1], failed, table, stripOf) +
      (if StripParticipant(last, failed, table) && stripOf(last).Some? then [stripOf(last).value] else [])
  }

  // ---------------------------------------------------------------------
  // The coordinator

  class Coordinator {
    const trace: Trace
    var modules: seq<ModuleRef>
    var moduleResources: map<ModuleRef, Resources>
    var keyOwners: map<KeyId, ModuleRef>
    var dialOwners: map<DialId, ModuleRef>
    var failedModules: set<ModuleRef>
    var stripRect: Rect
    var hasCancel: bool        // Start derived a cancellable context
    var cancelled: bool        // Stop cancelled it
    var stripHandlers: bool    // Start installed the touch-strip handlers
    var overlayWasActive: bool

    /** Every table entry refers to a registered module. */
    ghost predicate Valid()
      reads this
    {
      && (forall m :: m in moduleResources <==> m in modules)
      && (forall k :: k in keyOwners ==> keyOwners[k] in modules)
      && (forall d :: d in dialOwners ==> dialOwners[d] in modules)
      && (forall m :: m in failedModules ==> m in modules)
    }

    /** New: empty tables for the given device. */
    constructor (t: Trace)
      ensures Valid() && trace == t
      ensures modules == [] && moduleResources == map[] && keyOwners == map[] && dialOwners == map[]
      ensures failedModules == {} && stripRect == ZeroRect
      ensures !hasCancel && !cancelled && !stripHandlers && !overlayWasActive
    {
      trace := t;
      modules, moduleResources, keyOwners, dialOwners := [], map[], map[], map[];
      failedModules, stripRect := {}, ZeroRect;
      hasCancel, cancelled, stripHandlers, overlayWasActive := false, false, false, false;
    }

    function ResourcesForModule(m: ModuleRef): Resources
      reads this
    {
      ResourceOf(moduleResources, m)
    }

    /** Route on the current tables and the modules' current overlay answers. */
    function KeyTarget(key: KeyId, active: set<ModuleRef>): Target
      reads this
    {
      Route(FirstEligible(modules, failedModules, active), keyOwners, key, failedModules)
    }

    function DialTarget(dial: DialId, active: set<ModuleRef>): Target
      reads this
    {
      Route(FirstEligible(modules, failedModules, active), dialOwners, dial, failedModules)
    }

    /** Stores the grant, claims its keys and dials for `m` (later grants win) and appends `m`. */
    method RegisterModule(m: ModuleRef, res: Resources) returns (err: bool)
      requires Valid()
      modifies this`moduleResources, this`keyOwners, this`dialOwners, this`modules
      ensures Valid() && !err
      ensures moduleResources == old(moduleResources)[m := res]
      ensures ResourcesForModule(m) == res
      ensures keyOwners == Claim(old(keyOwners), res.keys, m)
      ensures dialOwners == Claim(old(dialOwners), res.dials, m)
      ensures modules == old(modules) + [m]
      ensures failedModules == old(failedModules) && stripRect == old(stripRect)
      ensures hasCancel == old(hasCancel) && cancelled == old(cancelled)
      ensures stripHandlers == old(stripHandlers) && overlayWasActive == old(overlayWasActive)
    {
      moduleResources := moduleResources[m := res];
      for i := 0 to |res.keys|
        invariant keyOwners == Claim(old(keyOwners), res.keys[..i], m)
        modifies this`keyOwners
      {
        ClaimStep(old(keyOwners), res.keys, i, m);
        keyOwners := keyOwners[res.keys[i] := m];
      }
      assert res.keys[..|res.keys|] == res.keys;
      for i := 0 to |res.dials|
        invariant dialOwners == Claim(old(dialOwners), res.dials[..i], m)
        modifies this`dialOwners
      {
        ClaimStep(old(dialOwners), res.dials, i, m);
        dialOwners := dialOwners[res.dials[i] := m];
      }
      assert res.dials[..|res.dials|] == res.dials;
      modules := modules + [m];
      err := false;
    }

    /**
     * The initialisation part of Start: capture the strip geometry, call Init on
     * every module in registration order and mark those that fail, without
     * stopping at the first failure; then install the strip handlers if the
     * device has a strip.
     */
    method Start(failing: set<Call>, stripSupported: bool, stripQuery: Option<Rect>)
      requires Valid()
      modifies this`hasCancel, this`cancelled, this`stripRect, this`failedModules, this`stripHandlers, trace
      ensures Valid()
      ensures trace.invoked == old(trace.invoked) + InitCalls(modules, moduleResources)
      ensures trace.pushed == old(trace.pushed)
      ensures failedModules == old(failedModules) + FailedInits(modules, moduleResources, failing)
      ensures stripRect == if stripSupported && stripQuery.Some? then stripQuery.value else old(stripRect)
      ensures hasCancel && !cancelled && stripHandlers == stripSupported
      ensures modules == old(modules) && moduleResources == old(moduleResources)
      ensures keyOwners == old(keyOwners) && dialOwners == old(dialOwners)
      ensures overlayWasActive == old(overlayWasActive)
    {
      hasCancel, cancelled := true, false;
      if stripSupported && stripQuery.Some? {
        stripRect := stripQuery.value;
      }
      InitModules(failing);
      stripHandlers := stripSupported;
    }

    /** Start's Init loop: every module in registration order, failures marked and skipped over. */
    method InitModules(failing: set<Call>)
      requires Valid()
      modifies this`failedModules, trace
      ensures Valid()
      ensures trace.invoked == old(trace.invoked) + InitCalls(modules, moduleResources)
      ensures trace.pushed == old(trace.pushed)
      ensures failedModules == old(failedModules) + FailedInits(modules, moduleResources, failing)
    {
      for i := 0 to |modules|
        invariant trace.invoked == old(trace.invoked) + InitCalls(modules[..i], moduleResources)
        invariant failedModules == old(failedModules) + FailedInits(modules[..i], moduleResources, failing)
        invariant trace.pushed == old(trace.pushed)
        invariant Valid()
        modifies this`failedModules, trace
      {
        var m := modules[i];
        var call := InitCall(m, ResourcesForModule(m));
        InitCallsStep(modules, i, moduleResources);
        FailedInitsStep(modules, i, moduleResources, failing);
        trace.invoked := trace.invoked + [call];
        if call in failing {
          failedModules := failedModules + {m};
        }
      }
      assert modules[..|modules|] == modules;
    }

    /** Cancels the context and calls Stop on every module, failed ones included, in order. */
    method Stop() returns (err: bool)
      modifies this`cancelled, trace
      ensures !err
      ensures trace.invoked == old(trace.invoked) + StopCalls(modules)
      ensures trace.pushed == old(trace.pushed)
      ensures cancelled == (old(cancelled) || hasCancel) && hasCancel == old(hasCancel)
      ensures modules == old(modules) && failedModules == old(failedModules)
      ensures moduleResources == old(moduleResources)
      ensures keyOwners == old(keyOwners) && dialOwners == old(dialOwners)
    {
      if hasCancel {
        cancelled := true;
      }
      for i := 0 to |modules|
        invariant trace.invoked == old(trace.invoked) + StopCalls(modules[..i])
        invariant trace.pushed == old(trace.pushed)
        modifies trace
      {
        trace.invoked := trace.invoked + [StopCall(modules[i])];
      }
      assert modules[..|modules|] == modules;
      err := false;
    }

    /** The search of `getActiveOverlay`. */
    method GetActiveOverlay(active: set<ModuleRef>) returns (o: Option<ModuleRef>)
      ensures o == FirstEligible(modules, failedModules, active)
    {
      var i := 0;
      while i < |modules|
        invariant 0 <= i <= |modules|
        invariant FirstEligible(modules, failedModules, active) == FirstEligible(modules[i..], failedModules, active)
      {
        assert modules[i..][1..] == modules[i + 1..];
        if Eligible(modules[i], failedModules, active) {
          return Some(modules[i]);
        }
        i := i + 1;
      }
      return None;
    }

    /** A key handler: overlay first, else the owner, else nothing. */
    method HandleKeyPress(key: KeyId, duration: int, active: set<ModuleRef>, failing: set<Call>) returns (err: bool)
      requires key in AllKeys
      modifies trace
      ensures trace.pushed == old(trace.pushed)
      ensures trace.invoked == old(trace.invoked) + KeyCalls(KeyTarget(key, active), key, duration, failing).0
      ensures err == KeyCalls(KeyTarget(key, active), key, duration, failing).1
    {
      var overlay := GetActiveOverlay(active);
      if overlay.Some? {
        var press := OverlayKeyCall(overlay.value, key, KeyEvent(true, 0));
        trace.invoked := trace.invoked + [press];
        if press in failing {
          return true;
        }
        var release := OverlayKeyCall(overlay.value, key, KeyEvent(false, duration));
        trace.invoked := trace.invoked + [release];
        return release in failing;
      }
      if key !in keyOwners || keyOwners[key] in failedModules {
        return false;
      }
      var owner := keyOwners[key];
      var press := KeyCall(owner, key, KeyEvent(true, 0));
      trace.invoked := trace.invoked + [press];
      if press in failing {
        return true;
      }
      var release := KeyCall(owner, key, KeyEvent(false, duration));
      trace.invoked := trace.invoked + [release];
      return release in failing;
    }

    /** A dial rotation handler: one rotate event with the delta. */
    method HandleDialRotate(dial: DialId, delta: Int8, active: set<ModuleRef>, failing: set<Call>) returns (err: bool)
      requires dial in AllDials
      modifies trace
      ensures trace.pushed == old(trace.pushed)
      ensures trace.invoked == old(trace.invoked) + DialRotateCalls(DialTarget(dial, active), dial, delta, failing).0
      ensures err == DialRotateCalls(DialTarget(dial, active), dial, delta, failing).1
    {
      var event := Rotation(delta);
      var overlay := GetActiveOverlay(active);
      if overlay.Some? {
        var call := OverlayDialCall(overlay.value, dial, event);
        trace.invoked := trace.invoked + [call];
        return call in failing;
      }
      if dial !in dialOwners || dialOwners[dial] in failedModules {
        return false;
      }
      var call := DialCall(dialOwners[dial], dial, event);
      trace.invoked := trace.invoked + [call];
      return call in failing;
    }

    /** A dial press handler: a press event, then a release event with the hold time. */
    method HandleDialSwitch(dial: DialId, duration: int, active: set<ModuleRef>, failing: set<Call>) returns (err: bool)
      requires dial in AllDials
      modifies trace
      ensures trace.pushed == old(trace.pushed)
      ensures trace.invoked == old(trace.invoked) + DialSwitchCalls(DialTarget(dial, active), dial, duration, failing).0
      ensures err == DialSwitchCalls(DialTarget(dial, active), dial, duration, failing).1
    {
      var overlay := GetActiveOverlay(active);
      if overlay.Some? {
        var press := OverlayDialCall(overlay.value, dial, DialEvent(DialPress, 0, 0));
        trace.invoked := trace.invoked + [press];
        if press in failing {
          return true;
        }
        var release := OverlayDialCall(overlay.value, dial, DialEvent(DialRelease, 0, duration));
        trace.invoked := trace.invoked + [release];
        return release in failing;
      }
      if dial !in dialOwners || dialOwners[dial] in failedModules {
        return false;
      }
      var owner := dialOwners[dial];
      var press := DialCall(owner, dial, DialEvent(DialPress, 0, 0));
      trace.invoked := trace.invoked + [press];
      if press in failing {
        return true;
      }
      var release := DialCall(owner, dial, DialEvent(DialRelease, 0, duration));
      trace.invoked := trace.invoked + [release];
      return release in failing;
    }

    /** `routeStripEvent`: the first non-failed module with a strip region, whatever the touch point. */
    method RouteStripEvent(event: TouchStripEvent, failing: set<Call>) returns (err: bool)
      modifies trace
      ensures trace.pushed == old(trace.pushed)
      ensures var t := FirstStripModule(modules, failedModules, moduleResources);
        && (t.None? ==> trace.invoked == old(trace.invoked) && !err)
        && (t.Some? ==> trace.invoked == old(trace.invoked) + [StripTouchCall(t.value, event)]
                        && err == (StripTouchCall(t.value, event) in failing))
    {
      var i := 0;
      while i < |modules|
        invariant 0 <= i <= |modules|
        invariant FirstStripModule(modules, failedModules, moduleResources)
               == FirstStripModule(modules[i..], failedModules, moduleResources)
      {
        assert modules[i..][1..] == modules[i + 1..];
        var m := modules[i];
        if m !in failedModules && ResourcesForModule(m).HasStrip() {
          var call := StripTouchCall(m, event);
          trace.invoked := trace.invoked + [call];
          return call in failing;
        }
        i := i + 1;
      }
      return false;
    }

    /** The strip's tap handler (installed only when the device has a strip). */
    method HandleStripTouch(touchType: TouchType, point: Point, active: set<ModuleRef>, failing: set<Call>) returns (err: bool)
      modifies trace
      ensures trace.pushed == old(trace.pushed)
      ensures !stripHandlers ==> trace.invoked == old(trace.invoked) && !err
      ensures stripHandlers ==> StripDelivered(Convert.TouchStripEventFromTap(touchType, point), active, failing,
                                               old(trace.invoked), trace.invoked, err)
    {
      if !stripHandlers {
        return false;
      }
      var event := Convert.TouchStripEventFromTap(touchType, point);
      err := DeliverStripEvent(event, active, failing);
    }

    /** The strip's swipe handler (installed only when the device has a strip). */
    method HandleStripSwipe(origin: Point, destination: Point, active: set<ModuleRef>, failing: set<Call>) returns (err: bool)
      modifies trace
      ensures trace.pushed == old(trace.pushed)
      ensures !stripHandlers ==> trace.invoked == old(trace.invoked) && !err
      ensures stripHandlers ==> StripDelivered(Convert.TouchStripEventFromSwipe(origin, destination), active, failing,
                                               old(trace.invoked), trace.invoked, err)
    {
      if !stripHandlers {
        return false;
      }
      var event := Convert.TouchStripEventFromSwipe(origin, destination);
      err := DeliverStripEvent(event, active, failing);
    }

    /** The body shared by both strip handlers: overlay first, else `routeStripEvent`. */
    method DeliverStripEvent(event: TouchStripEvent, active: set<ModuleRef>, failing: set<Call>) returns (err: bool)
      modifies trace
      ensures trace.pushed == old(trace.pushed)
      ensures StripDelivered(event, active, failing, old(trace.invoked), trace.invoked, err)
    {
      var overlay := GetActiveOverlay(active);
      if overlay.Some? {
        var call := OverlayStripTouchCall(overlay.value, event);
        trace.invoked := trace.invoked + [call];
        return call in failing;
      }
      err := RouteStripEvent(event, failing);
    }

    /** A strip event went to the active overlay, else to the first strip module, else nowhere. */
    ghost predicate StripDelivered(event: TouchStripEvent, active: set<ModuleRef>, failing: set<Call>,
                                   before: seq<Call>, after: seq<Call>, err: bool)
      reads this
    {
      var o := FirstEligible(modules, failedModules, active);
      var t := FirstStripModule(modules, failedModules, moduleResources);
      if o.Some? then after == before + [OverlayStripTouchCall(o.value, event)]
                      && err == (OverlayStripTouchCall(o.value, event) in failing)
      else if t.Some? then after == before + [StripTouchCall(t.value, event)]
                           && err == (StripTouchCall(t.value, event) in failing)
      else after == before && !err
    }

    /** Pushes the non-nil images of one key-image map, leaving out nil ones. */
    method PushKeyImages(rs: seq<Rendered>)
      modifies trace
      ensures trace.pushed == old(trace.pushed) + NonNil(rs)
      ensures trace.invoked == old(trace.invoked)
    {
      for i := 0 to |rs|
        invariant trace.pushed == old(trace.pushed) + NonNil(rs[..i])
        invariant trace.invoked == old(trace.invoked)
      {
        assert rs[..i + 1][..i] == rs[..i];
        if rs[i].1.Some? {
          trace.pushed := trace.pushed + [KeyImage(rs[i].0, rs[i].1.value)];
        }
      }
      assert rs[..|rs|] == rs;
    }

    /** Sets all eight keys to a black image of the key size; nothing if that size is unknown. */
    method ClearAllKeys(keyRect: Option<Rect>)
      modifies trace
      ensures trace.pushed == old(trace.pushed) + Clears(keyRect)
      ensures trace.invoked == old(trace.invoked)
    {
      if keyRect.None? {
        return;
      }
      var black := Black(keyRect.value);
      for i := 0 to 8
        invariant trace.pushed == old(trace.pushed) + Clears(keyRect)[..i]
        invariant trace.invoked == old(trace.invoked)
      {
        trace.pushed := trace.pushed + [KeyImage(AllKeys[i], black)];
        assert Clears(keyRect)[..i + 1] == Clears(keyRect)[..i] + [KeyImage(AllKeys[i], black)];
      }
    }

    /**
     * One key-rendering tick. With an active overlay only its images are pushed;
     * otherwise, right after an overlay ended, all keys are cleared first, and then
     * every non-failed module's images are pushed. Nil images are never pushed.
     */
    method RenderKeys(active: set<ModuleRef>, keyRect: Option<Rect>,
                      keysOf: ModuleRef -> seq<Rendered>, overlayKeysOf: ModuleRef -> seq<Rendered>)
      modifies this`overlayWasActive, trace
      ensures var o := FirstEligible(modules, failedModules, active);
        if o.Some? then
          && trace.invoked == old(trace.invoked) + [RenderOverlayKeysCall(o.value)]
          && trace.pushed == old(trace.pushed) + NonNil(overlayKeysOf(o.value))
          && overlayWasActive
        else
          && trace.invoked == old(trace.invoked) + RenderCalls(modules, failedModules)
          && trace.pushed == old(trace.pushed) + (if old(overlayWasActive) then Clears(keyRect) else [])
                                               + RenderPushes(modules, failedModules, keysOf)
          && !overlayWasActive
    {
      var overlay := GetActiveOverlay(active);
      if overlay.Some? {
        trace.invoked := trace.invoked + [RenderOverlayKeysCall(overlay.value)];
        PushKeyImages(overlayKeysOf(overlay.value));
        overlayWasActive := true;
        return;
      }
      if overlayWasActive {
        ClearAllKeys(keyRect);
        overlayWasActive := false;
      }
      RenderModuleKeys(keysOf);
    }

    /** The normal branch of a key-rendering tick: each non-failed module, in order. */
    method RenderModuleKeys(keysOf: ModuleRef -> seq<Rendered>)
      modifies trace
      ensures trace.invoked == old(trace.invoked) + RenderCalls(modules, failedModules)
      ensures trace.pushed == old(trace.pushed) + RenderPushes(modules, failedModules, keysOf)
    {
      for i := 0 to |modules|
        invariant trace.invoked == old(trace.invoked) + RenderCalls(modules[..i], failedModules)
        invariant trace.pushed == old(trace.pushed) + RenderPushes(modules[..i], failedModules, keysOf)
      {
        var m := modules[i];
        assert modules[..i + 1][..i] == modules[..i];
        if m !in failedModules {
          trace.invoked := trace.invoked + [RenderKeysCall(m)];
          PushKeyImages(keysOf(m));
        }
      }
      assert modules[..|modules|] == modules;
    }

    /**
     * One strip-rendering tick (nothing without a strip): the active overlay's
     * strip if it has one, else the composite of the non-nil strips of the
     * non-failed modules that have a strip region, in registration order.
     */
    method RenderStrip(active: set<ModuleRef>, stripOf: ModuleRef -> Option<Image>,
                       overlayStripOf: ModuleRef -> Option<Image>)
      modifies trace
      ensures stripRect.Empty() ==> trace.invoked == old(trace.invoked) && trace.pushed == old(trace.pushed)
      ensures !stripRect.Empty() ==>
        var o := FirstEligible(modules, failedModules, active);
        if o.Some? then
          && trace.invoked == old(trace.invoked) + [RenderOverlayStripCall(o.value)]
          && trace.pushed == old(trace.pushed) +
               (if overlayStripOf(o.value).Some? then [StripImage(overlayStripOf(o.value).value)] else [])
        else
          && trace.invoked == old(trace.invoked) + StripCalls(modules, failedModules, moduleResources)
          && trace.pushed == old(trace.pushed) +
               [StripImage(Composite(stripRect, StripLayers(modules, failedModules, moduleResources, stripOf)))]
    {
      if stripRect.Empty() {
        return;
      }
      var overlay := GetActiveOverlay(active);
      if overlay.Some? {
        trace.invoked := trace.invoked + [RenderOverlayStripCall(overlay.value)];
        var img := overlayStripOf(overlay.value);
        if img.Some? {
          trace.pushed := trace.pushed + [StripImage(img.value)];
        }
        return;
      }
      var layers: seq<Image> := [];
      for i := 0 to |modules|
        invariant trace.invoked == old(trace.invoked) + StripCalls(modules[..i], failedModules, moduleResources)
        invariant layers == StripLayers(modules[..i], failedModules, moduleResources, stripOf)
        invariant trace.pushed == old(trace.pushed)
      {
        var m := modules[i];
        assert modules[..i + 1][..i] == modules[..i];
        if m in failedModules {
          continue;
        }
        if !ResourcesForModule(m).HasStrip() {
          continue;
        }
        trace.invoked := trace.invoked + [RenderStripCall(m)];
        var img := stripOf(m);
        if img.None? {
          continue;
        }
        layers := layers + [img.value];
      }
      assert modules[..|modules|] == modules;
      trace.pushed := trace.pushed + [StripImage(Composite(stripRect, layers))];
    }
  }

  // ---------------------------------------------------------------------
  // Properties

  /** The overlay search returns the first eligible module, and nothing only when none is eligible. */
  lemma {:induction false} FirstEligibleIsFirst(ms: seq<ModuleRef>, failed: set<ModuleRef>, active: set<ModuleRef>)
    ensures FirstEligible(ms, failed, active).None? <==> forall j :: 0 <= j < |ms| ==> !Eligible(ms[j], failed, active)
    ensures FirstEligible(ms, failed, active).Some? ==>
      exists i :: 0 <= i < |ms| && ms[i] == FirstEligible(ms, failed, active).value && Eligible(ms[i], failed, active)
        && forall j :: 0 <= j < i ==> !Eligible(ms[j], failed, active)
  {
    if ms != [] && !Eligible(ms[0], failed, active) {
      FirstEligibleIsFirst(ms[1..], failed, active);
      var o := FirstEligible(ms, failed, active);
      if o.Some? {
        var i :| 0 <= i < |ms[1..]| && ms[1..][i] == o.value && Eligible(ms[1..][i], failed, active)
          && forall j :: 0 <= j < i ==> !Eligible(ms[1..][j], failed, active);
        assert ms[i + 1] == o.value;
        assert forall j :: 1 <= j < i + 1 ==> ms[j] == ms[1..][j - 1];
      }
      assert forall j :: 1 <= j < |ms| ==> ms[j] == ms[1..][j - 1];
    } else if ms != [] {
      assert ms[0] == FirstEligible(ms, failed, active).value;
    }
  }

  /** Strip touches go to the first non-failed module with a strip region, and nowhere only when there is none. */
  lemma {:induction false} FirstStripModuleIsFirst(ms: seq<ModuleRef>, failed: set<ModuleRef>, table: map<ModuleRef, Resources>)
    ensures FirstStripModule(ms, failed, table).None? <==> forall j :: 0 <= j < |ms| ==> !StripParticipant(ms[j], failed, table)
    ensures FirstStripModule(ms, failed, table).Some? ==>
      exists i :: 0 <= i < |ms| && ms[i] == FirstStripModule(ms, failed, table).value && StripParticipant(ms[i], failed, table)
        && forall j :: 0 <= j < i ==> !StripParticipant(ms[j], failed, table)
  {
    if ms != [] && !StripParticipant(ms[0], failed, table) {
      FirstStripModuleIsFirst(ms[1..], failed, table);
      var o := FirstStripModule(ms, failed, table);
      if o.Some? {
        var i :| 0 <= i < |ms[1..]| && ms[1..][i] == o.value && StripParticipant(ms[1..][i], failed, table)
          && forall j :: 0 <= j < i ==> !StripParticipant(ms[1..][j], failed, table);
        assert ms[i + 1] == o.value;
        assert forall j :: 1 <= j < i + 1 ==> ms[j] == ms[1..][j - 1];
      }
      assert forall j :: 1 <= j < |ms| ==> ms[j] == ms[1..][j - 1];
    } else if ms != [] {
      assert ms[0] == FirstStripModule(ms, failed, table).value;
    }
  }

  /** A failed module is never chosen as the overlay. */
  lemma {:induction false} OverlayNeverFailed(ms: seq<ModuleRef>, failed: set<ModuleRef>, active: set<ModuleRef>)
    ensures FirstEligible(ms, failed, active).Some? ==>
      var m := FirstEligible(ms, failed, active).value;
      m in ms && m !in failed && m.overlay && m in active
  {
    if ms != [] && !Eligible(ms[0], failed, active) {
      OverlayNeverFailed(ms[1..], failed, active);
    }
  }

  /**
   * Key and dial events reach only non-failed modules: the active overlay if
   * there is one, otherwise the owner of the control if any.
   */
  lemma RoutingSkipsFailed(ms: seq<ModuleRef>, failed: set<ModuleRef>, active: set<ModuleRef>,
                           owners: map<Byte, ModuleRef>, id: Byte)
    ensures var t := Route(FirstEligible(ms, failed, active), owners, id, failed);
      && (t.ToOverlay? ==> t.m !in failed && t.m.overlay && t.m in active)
      && (t.ToOwner? ==> FirstEligible(ms, failed, active).None? && id in owners && owners[id] == t.m && t.m !in failed)
      && (t.Dropped? <==> FirstEligible(ms, failed, active).None? && (id !in owners || owners[id] in failed))
  {
    OverlayNeverFailed(ms, failed, active);
  }

  /** A press and its release go to the same module, and the release is skipped exactly when the press fails. */
  lemma KeyPressShape(t: Target, key: KeyId, duration: int, failing: set<Call>)
    ensures var (calls, err) := KeyCalls(t, key, duration, failing);
      && (t.Dropped? <==> calls == [])
      && (t.ToOwner? ==>
            && calls[0] == KeyCall(t.m, key, KeyEvent(true, 0))
            && (|calls| == 2 <==> calls[0] !in failing)
            && (|calls| == 2 ==> calls[1] == KeyCall(t.m, key, KeyEvent(false, duration))))
      && (t.ToOverlay? ==>
            && calls[0] == OverlayKeyCall(t.m, key, KeyEvent(true, 0))
            && (|calls| == 2 <==> calls[0] !in failing)
            && (|calls| == 2 ==> calls[1] == OverlayKeyCall(t.m, key, KeyEvent(false, duration))))
      && (err <==> exists c :: c in calls && c in failing)
  {
    var (calls, err) := KeyCalls(t, key, duration, failing);
    if t.ToOwner? || t.ToOverlay? {
      assert calls[0] in calls;
      if |calls| == 2 {
        assert calls[1] in calls;
      }
    }
  }

  /** Exactly the non-failed modules are asked for key images, each once, in registration order. */
  lemma {:induction false} RenderCallsAreNonFailed(ms: seq<ModuleRef>, failed: set<ModuleRef>)
    ensures forall c :: c in RenderCalls(ms, failed) <==> c.RenderKeysCall? && c.m in ms && c.m !in failed
    ensures |RenderCalls(ms, failed)| <= |ms|
  {
    if ms != [] {
      var init := ms[..|ms| - 1];
      RenderCallsAreNonFailed(init, failed);
      assert ms == init + [ms[|ms| - 1]];
      forall c ensures c in RenderCalls(ms, failed) <==> c.RenderKeysCall? && c.m in ms && c.m !in failed {
        assert c.m in ms <==> c.m in init || c.m == ms[|ms| - 1];
      }
    }
  }

  /** A key-image map is pushed without its nil entries: each non-nil entry once, nothing else. */
  lemma {:induction false} NonNilKeepsImages(rs: seq<Rendered>)
    ensures forall p :: p in NonNil(rs) <==> p.KeyImage? && (p.key, Some(p.img)) in rs
    ensures |NonNil(rs)| <= |rs|
  {
    if rs != [] {
      var init := rs[..|rs| - 1];
      NonNilKeepsImages(init);
      assert rs == init + [rs[|rs| - 1]];
      forall p ensures p in NonNil(rs) <==> p.KeyImage? && (p.key, Some(p.img)) in rs {
        if p.KeyImage? {
          assert (p.key, Some(p.img)) in rs <==> (p.key, Some(p.img)) in init || (p.key, Some(p.img)) == rs[|rs| - 1];
        }
      }
    }
  }

  /** Exactly the non-failed modules with a strip region are asked for a strip image. */
  lemma {:induction false} StripCallsAreParticipants(ms: seq<ModuleRef>, failed: set<ModuleRef>, table: map<ModuleRef, Resources>)
    ensures forall c :: c in StripCalls(ms, failed, table) <==> c.RenderStripCall? && c.m in ms && StripParticipant(c.m, failed, table)
  {
    if ms != [] {
      var init, last := ms[..|ms| - 1], ms[|ms| - 1];
      StripCallsAreParticipants(init, failed, table);
      var tail := if StripParticipant(last, failed, table) then [RenderStripCall(last)] else [];
      assert StripCalls(ms, failed, table) == StripCalls(init, failed, table) + tail;
      assert ms == init + [last];
      forall c ensures c in StripCalls(ms, failed, table) <==> c.RenderStripCall? && c.m in ms && StripParticipant(c.m, failed, table) {
        assert c in StripCalls(ms, failed, table) <==> c in StripCalls(init, failed, table) || c in tail;
        assert c.m in ms <==> c.m in init || c.m == last;
      }
    }
  }

  /** Each layer of the strip composite is the image of some non-failed module with a strip region. */
  lemma {:induction false} StripLayersHaveOwners(ms: seq<ModuleRef>, failed: set<ModuleRef>,
                                                 table: map<ModuleRef, Resources>, stripOf: ModuleRef -> Option<Image>)
    ensures |StripLayers(ms, failed, table, stripOf)| <= |StripCalls(ms, failed, table)|
    ensures forall img :: img in StripLayers(ms, failed, table, stripOf) ==>
      exists m :: m in ms && StripParticipant(m, failed, table) && stripOf(m) == Some(img)
  {
    if ms != [] {
      var init, last := ms[..|ms| - 1], ms[|ms| - 1];
      StripLayersHaveOwners(init, failed, table, stripOf);
      assert ms == init + [last];
      forall img | img in StripLayers(ms, failed, table, stripOf)
        ensures exists m :: m in ms && StripParticipant(m, failed, table) && stripOf(m) == Some(img)
      {
        if img !in StripLayers(init, failed, table, stripOf) {
          assert stripOf(last) == Some(img);
        } else {
          var m :| m in init && StripParticipant(m, failed, table) && stripOf(m) == Some(img);
          assert m in ms;
        }
      }
    }
  }

  /** The strip composite has at most one layer per module asked, and each layer is some participant's image. */
  lemma StripLayersFromParticipants(ms: seq<ModuleRef>, failed: set<ModuleRef>,
                                    table: map<ModuleRef, Resources>, stripOf: ModuleRef -> Option<Image>)
    ensures |StripLayers(ms, failed, table, stripOf)| <= |StripCalls(ms, failed, table)|
    ensures forall img :: img in StripLayers(ms, failed, table, stripOf) ==>
      exists m :: m in ms && StripParticipant(m, failed, table) && stripOf(m) == Some(img)
    ensures forall c :: c in StripCalls(ms, failed, table) <==> c.RenderStripCall? && c.m in ms && StripParticipant(c.m, failed, table)
  {
    StripLayersHaveOwners(ms, failed, table, stripOf);
    StripCallsAreParticipants(ms, failed, table);
  }

  /** The set Start marks as failed is exactly the set of modules whose Init call fails. */
  lemma FailedInitsExact(ms: seq<ModuleRef>, table: map<ModuleRef, Resources>, failing: set<Call>, m: ModuleRef)
    ensures m in FailedInits(ms, table, failing) <==> m in ms && InitCall(m, ResourceOf(table, m)) in failing
  {
  }

  /**
   * After Start from a fresh coordinator, a registered module is asked for
   * key images exactly when its Init succeeded.
   */
  lemma RenderedIffInitSucceeded(ms: seq<ModuleRef>, table: map<ModuleRef, Resources>, failing: set<Call>, m: ModuleRef)
    requires m in ms
    ensures RenderKeysCall(m) in RenderCalls(ms, {} + FailedInits(ms, table, failing))
            <==> InitCall(m, ResourceOf(table, m)) !in failing
  {
    RenderCallsAreNonFailed(ms, {} + FailedInits(ms, table, failing));
  }

  /** With two grants, each id belongs to the later grant that lists it. */
  lemma LaterRegistrantWins(owners: map<Byte, ModuleRef>, first: seq<Byte>, a: ModuleRef, second: seq<Byte>, b: ModuleRef, id: Byte)
    requires id in first
    ensures id in Claim(Claim(owners, first, a), second, b)
    ensures Claim(Claim(owners, first, a), second, b)[id] == if id in second then b else a
  {
  }
}
