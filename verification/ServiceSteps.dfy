// The VDSP service as a step system. A call enters the server and then goes through its regions: threads hold
// mLoadLock and mPowerHintLock across steps; a region under mLock is one step, with the release of the outer
// lock that follows it; calls to the DSP are steps of their own in between. A client may die at any time; the
// calls it has in the server go on.
module ServiceSteps {
  import opened Bags
  import opened ServiceTables
  import opened ServiceCore

  type Tid = nat

  // A call that has entered the server and has not yet taken its first lock.
  datatype Request =
    | ROpen(c: Client, kind: WorkType)
    | RClose(c: Client)
    | RSend(c: Client)
    | RLoad(c: Client, name: string)
    | RUnload(c: Client, name: string)
    | RHint(c: Client)

  // Where a thread is. dev is the device its call was admitted on, or none if none was open then.
  datatype Phase =
    | Idle
    | Wants(req: Request)
    | Sending(c: Client, dev: Option<nat>)
    | LoadHeld(c: Client, name: string)
    | Loading(c: Client, name: string, dev: Option<nat>)
    | Loaded(c: Client, name: string, ok: bool, dev: Option<nat>)
    | UnloadHeld(c: Client, name: string)
    | Unloading(c: Client, name: string, dev: Option<nat>)
    | Unloaded(c: Client, name: string, dev: Option<nat>)
    | HintHeld(c: Client)
    | Hinting(c: Client, dev: Option<nat>)
    | DeathWantsHint(c: Client)
    | DeathWantsMain(c: Client)
    | DeathWindow(c: Client, pause: Pause)     // asleep in closeXrpDevice_NoLock, only mPowerHintLock held
    | DeathRelocked(c: Client, pause: Pause)   // mLoadLock held again, about to take mLock

  datatype State = State(
    core: Core,
    threads: map<Tid, Phase>,
    loadOwner: Option<Tid>,
    hintOwner: Option<Tid>,
    resident: set<string>,                      // libraries in the DSP
    lost: nat,                                  // sends that ended on a map failure
    gone: set<Client>,                          // clients whose process has ended
    notified: set<Client>,                      // clients whose death handler has started
    dead: set<Client>,                          // clients whose death handler has taken mLock
    sessions: map<Client, multiset<WorkType>>,  // the types each client's opens asked for
    loaded: map<Client, multiset<string>>,      // what each client has loaded and not unloaded
    devices: nat)                               // devices opened so far

  ghost predicate Init(s: State) {
    s == State(Fresh(), map[], None, None, {}, 0, {}, {}, {}, map[], map[], 0)
  }

  function At(s: State, t: Tid): Phase {
    if t in s.threads then s.threads[t] else Idle
  }

  // The call counts in mworking.
  predicate Working(p: Phase) {
    p.Sending? || p.Loading? || p.Loaded? || p.Unloading? || p.Unloaded? || p.Hinting?
  }

  predicate HoldsLoad(p: Phase) {
    || p.LoadHeld? || p.Loading? || p.Loaded? || p.UnloadHeld? || p.Unloading? || p.Unloaded?
    || p.DeathWantsHint? || p.DeathWantsMain? || p.DeathRelocked?
  }

  predicate HoldsHint(p: Phase) {
    p.HintHeld? || p.Hinting? || p.DeathWantsMain? || p.DeathWindow? || p.DeathRelocked?
  }

  predicate Waits(p: Phase) {
    p.DeathWindow? || p.DeathRelocked?
  }

  // The client whose death handler has released mLock and waits for calls in flight.
  function Dying(s: State): Option<Client> {
    if s.hintOwner.Some? && Waits(At(s, s.hintOwner.value)) then Some(At(s, s.hintOwner.value).c) else None
  }

  // kept: the libraries that survive a release of the device; dropped: those of its libraries that the DSP
  // lets go of when told to by the death handler.
  datatype Step =
    | Arrive(t: Tid, req: Request)   // a call enters the server
    | Die(c: Client)                 // a client's process ends
    | Open(t: Tid, link: int, opens: bool)
    | Close(t: Tid, kept: set<string>)
    | SendEnter(t: Tid) | SendMapFails(t: Tid) | SendLeave(t: Tid)
    | LoadLock(t: Tid) | LoadEnter(t: Tid) | DspLoad(t: Tid, ok: bool) | LoadLeave(t: Tid)
    | UnloadLock(t: Tid) | UnloadEnter(t: Tid) | DspUnload(t: Tid, ok: bool) | UnloadLeave(t: Tid)
    | HintLock(t: Tid) | HintEnter(t: Tid) | HintLeave(t: Tid)
    | DeathLoadLock(t: Tid, c: Client) | DeathHintLock(t: Tid)
    | DeathEnter(t: Tid, dropped: set<string>, kept: set<string>)
    | DeathRelock(t: Tid) | DeathResume(t: Tid, kept: set<string>)

  // A step can be taken. A client whose process has ended makes no new call, the binder refuses to link to
  // its death, and its death handler runs once.
  ghost predicate Guard(s: State, step: Step) {
    match step
    case Arrive(t, req) => At(s, t).Idle? && req.c !in s.gone
    case Die(c) => c !in s.gone
    case Open(t, link, _) => At(s, t).Wants? && At(s, t).req.ROpen? && (At(s, t).req.c in s.gone ==> link != 0)
    case Close(t, _) => At(s, t).Wants? && At(s, t).req.RClose?
    case SendEnter(t) => At(s, t).Wants? && At(s, t).req.RSend?
    case SendMapFails(t) => At(s, t).Sending?
    case SendLeave(t) => At(s, t).Sending?
    case LoadLock(t) => At(s, t).Wants? && At(s, t).req.RLoad? && s.loadOwner.None?
    case LoadEnter(t) => At(s, t).LoadHeld?
    case DspLoad(t, _) => At(s, t).Loading?
    case LoadLeave(t) => At(s, t).Loaded?
    case UnloadLock(t) => At(s, t).Wants? && At(s, t).req.RUnload? && s.loadOwner.None?
    case UnloadEnter(t) => At(s, t).UnloadHeld?
    case DspUnload(t, _) => At(s, t).Unloading?
    case UnloadLeave(t) => At(s, t).Unloaded?
    case HintLock(t) => At(s, t).Wants? && At(s, t).req.RHint? && s.hintOwner.None?
    case HintEnter(t) => At(s, t).HintHeld?
    case HintLeave(t) => At(s, t).Hinting?
    case DeathLoadLock(t, c) => At(s, t).Idle? && s.loadOwner.None? && c in s.gone && c !in s.notified
    case DeathHintLock(t) => At(s, t).DeathWantsHint? && s.hintOwner.None?
    case DeathEnter(t, _, _) => At(s, t).DeathWantsMain?
    case DeathRelock(t) => At(s, t).DeathWindow? && s.loadOwner.None?
    case DeathResume(t, _) => At(s, t).DeathRelocked?
  }

  function Go(s: State, t: Tid, p: Phase): State {
    s.(threads := s.threads[t := p])
  }

  function Sess(s: State, c: Client): multiset<WorkType> {
    if c in s.sessions then s.sessions[c] else multiset{}
  }

  // One for each load that returned 0, less one for each unload that was not refused. A client's last close and
  // its death handler end all of them.
  function Account(s: State, c: Client): multiset<string> {
    if c in s.loaded then s.loaded[c] else multiset{}
  }

  function OneMore(s: State, c: Client, name: string): map<Client, multiset<string>> {
    s.loaded[c := Account(s, c) + multiset{name}]
  }

  function OneFewer(s: State, c: Client, name: string): map<Client, multiset<string>> {
    s.loaded[c := Account(s, c) - multiset{name}]
  }

  function NoMore(s: State, c: Client): map<Client, multiset<string>> {
    s.loaded[c := multiset{}]
  }

  // One session ends; closeXrpDevice does not say which.
  ghost function OneLess(m: multiset<WorkType>): multiset<WorkType> {
    if exists k :: k in m then var k :| k in m; m - multiset{k} else m
  }

  // Releasing the device may cost libraries.
  function Survivors(s: State, k: Core, kept: set<string>): set<string> {
    if s.core.device.Some? && k.device.None? then s.resident * kept else s.resident
  }

  function AfterOpen(s: State, t: Tid, c: Client, kind: WorkType, link: int, opens: bool): State {
    var (k, ret) := Opened(s.core, c, kind, link, if opens then Some(s.devices) else None);
    Go(s.(core := k, devices := s.devices + 1,
          sessions := if ret == 0 then s.sessions[c := Sess(s, c) + multiset{kind}] else s.sessions), t, Idle)
  }

  ghost function AfterClose(s: State, t: Tid, c: Client, kept: set<string>): State {
    var (k, ret) := Closed(s.core, c);
    Go(s.(core := k, resident := Survivors(s, k, kept),
          sessions := if ret == 0 then s.sessions[c := OneLess(Sess(s, c))] else s.sessions,
          loaded := if ret == 0 && |Sess(s, c)| == 1 then NoMore(s, c) else s.loaded), t, Idle)
  }

  function AfterSendEnter(s: State, t: Tid, c: Client): State {
    if MayWork(s.core, c) then Go(s.(core := Entered(s.core)), t, Sending(c, s.core.device)) else Go(s, t, Idle)
  }

  function AfterLoadEnter(s: State, t: Tid, c: Client, name: string): State {
    var (k, way) := LoadBegun(s.core, c, name);
    if way.Calls? then Go(s.(core := k), t, Loading(c, name, s.core.device))
    else
      Go(s.(core := k, loadOwner := None,
            loaded := if way.Done? then OneMore(s, c, name) else s.loaded), t, Idle)
  }

  function AfterUnloadEnter(s: State, t: Tid, c: Client, name: string): State {
    var (k, way) := UnloadBegun(s.core, c, name);
    var s1 := s.(core := k, loaded := if way.Refused? then s.loaded else OneFewer(s, c, name));
    if way.Calls? then Go(s1, t, Unloading(c, name, s.core.device)) else Go(s1.(loadOwner := None), t, Idle)
  }

  function AfterHintEnter(s: State, t: Tid, c: Client): State {
    if MayWork(s.core, c) then Go(s.(core := Entered(s.core)), t, Hinting(c, s.core.device))
    else Go(s.(hintOwner := None), t, Idle)
  }

  // The end of a region of the death handler: it waits, or is done and releases both locks.
  function AfterDeath(s: State, t: Tid, c: Client, k: Core, pause: Option<Pause>, kept: set<string>): State {
    var s1 := s.(core := k, resident := Survivors(s, k, kept), loadOwner := None);
    if pause.Some? then Go(s1, t, DeathWindow(c, pause.value))
    else
      Go(s1.(hintOwner := None, sessions := s.sessions[c := multiset{}], loaded := NoMore(s, c)), t, Idle)
  }

  ghost function AfterDeathEnter(s: State, t: Tid, c: Client, dropped: set<string>, kept: set<string>): State {
    var (k, pause) := DeathBegun(s.core, c);
    var s1 := s.(resident := s.resident - SoleLibs(s.core.table, c) * dropped, dead := s.dead + {c},
                 loaded := NoMore(s, c));
    AfterDeath(s1, t, c, k, pause, kept)
  }

  ghost function Apply(s: State, step: Step): State
    requires Guard(s, step)
  {
    match step
    case Arrive(t, req) => Go(s, t, Wants(req))
    case Die(c) => s.(gone := s.gone + {c})
    case Open(t, link, opens) => AfterOpen(s, t, At(s, t).req.c, At(s, t).req.kind, link, opens)
    case Close(t, kept) => AfterClose(s, t, At(s, t).req.c, kept)
    case SendEnter(t) => AfterSendEnter(s, t, At(s, t).req.c)
    case SendMapFails(t) => Go(s.(lost := s.lost + 1), t, Idle)
    case SendLeave(t) => Go(s.(core := Left(s.core)), t, Idle)
    case LoadLock(t) => Go(s.(loadOwner := Some(t)), t, LoadHeld(At(s, t).req.c, At(s, t).req.name))
    case LoadEnter(t) => AfterLoadEnter(s, t, At(s, t).c, At(s, t).name)
    case DspLoad(t, ok) =>
      var p := At(s, t);
      Go(s.(resident := s.resident + if ok then {p.name} else {}), t, Loaded(p.c, p.name, ok, p.dev))
    case LoadLeave(t) =>
      var p := At(s, t);
      Go(s.(core := LoadDone(s.core, p.c, p.name, p.ok), loadOwner := None,
            loaded := if p.ok then OneMore(s, p.c, p.name) else s.loaded), t, Idle)
    case UnloadLock(t) => Go(s.(loadOwner := Some(t)), t, UnloadHeld(At(s, t).req.c, At(s, t).req.name))
    case UnloadEnter(t) => AfterUnloadEnter(s, t, At(s, t).c, At(s, t).name)
    case DspUnload(t, ok) =>
      var p := At(s, t);
      Go(s.(resident := s.resident - if ok then {p.name} else {}), t, Unloaded(p.c, p.name, p.dev))
    case UnloadLeave(t) => Go(s.(core := Left(s.core), loadOwner := None), t, Idle)
    case HintLock(t) => Go(s.(hintOwner := Some(t)), t, HintHeld(At(s, t).req.c))
    case HintEnter(t) => AfterHintEnter(s, t, At(s, t).c)
    case HintLeave(t) => Go(s.(core := Left(s.core), hintOwner := None), t, Idle)
    case DeathLoadLock(t, c) => Go(s.(loadOwner := Some(t), notified := s.notified + {c}), t, DeathWantsHint(c))
    case DeathHintLock(t) => Go(s.(hintOwner := Some(t)), t, DeathWantsMain(At(s, t).c))
    case DeathEnter(t, dropped, kept) => AfterDeathEnter(s, t, At(s, t).c, dropped, kept)
    case DeathRelock(t) => Go(s.(loadOwner := Some(t)), t, DeathRelocked(At(s, t).c, At(s, t).pause))
    case DeathResume(t, kept) =>
      var (k, pause) := DeathResumed(s.core, At(s, t).c, At(s, t).pause);
      AfterDeath(s, t, At(s, t).c, k, pause, kept)
  }

  // ---- calls of a dead client that change the table under its waiting handler ----

  // The region that the step performs is one of a client whose handler waits, and it goes through: an open
  // of the device's type, a close that is not refused because calls are in flight, or an unload of a library
  // whose record the handler has set to zero.
  predicate Breaks(s: State, step: Step) {
    match step
    case Open(t, _, _) =>
      At(s, t).Wants? && At(s, t).req.ROpen? && Dying(s) == Some(At(s, t).req.c) && At(s, t).req.kind == s.core.kind
    case Close(t, _) =>
      At(s, t).Wants? && At(s, t).req.RClose? && Dying(s) == Some(At(s, t).req.c) && !(s.core.opens == 1 && s.core.working != 0)
    case UnloadEnter(t) =>
      && At(s, t).UnloadHeld? && Dying(s) == Some(At(s, t).c)
      && HasLib(LoadsOf(s.core.table, At(s, t).c), At(s, t).name)
      && LoadNum(LoadsOf(s.core.table, At(s, t).c), At(s, t).name) == 0
    case _ => false
  }

  // ---- runs ----

  ghost predicate Next(s: State, s': State) {
    exists step :: Guard(s, step) && s' == Apply(s, step)
  }

  ghost predicate CleanNext(s: State, s': State) {
    exists step :: Guard(s, step) && !Breaks(s, step) && s' == Apply(s, step)
  }

  ghost predicate IsRun(run: seq<State>) {
    && run != [] && Init(run[0])
    && (forall i :: 0 <= i < |run| - 1 ==> Next(run[i], run[i + 1]))
  }

  // A run in which no call of a dead client changes the table under its waiting handler.
  ghost predicate IsCleanRun(run: seq<State>) {
    && run != [] && Init(run[0])
    && (forall i :: 0 <= i < |run| - 1 ==> CleanNext(run[i], run[i + 1]))
  }

  ghost predicate Reachable(s: State) {
    exists run: seq<State>, i: nat :: IsRun(run) && i < |run| && run[i] == s
  }

  ghost predicate CleanReachable(s: State) {
    exists run: seq<State>, i: nat :: IsCleanRun(run) && i < |run| && run[i] == s
  }
}
