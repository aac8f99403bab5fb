/**
 Controller tracking under hotplug: the daemon listens to udev, enumerates the controllers already attached,
 binds a gadget to each selected one and follows add and remove events, while controllers come and go.
 */
module Controllers {

  datatype Selection = First | All | Named(names: set<string>)

  /** `Selection::wants`. */
  predicate Wants(sel: Selection, name: string, bound: set<string>) {
    name !in bound &&
    match sel
    case First => bound == {}
    case All => true
    case Named(names) => name in names
  }

  /** The controllers a selection is meant for; `First` has no such fixed set. */
  predicate Selected(sel: Selection, name: string) {
    match sel case First => true case All => true case Named(names) => name in names
  }

  datatype Event = Add(name: string) | Remove(name: string)

  /** The gadget being built, if any, and whether its controller was unplugged since the build began. */
  datatype Build = NoBuild | Building(name: string, gone: bool)

  datatype Phase = Starting | Listening | Binding | Running

  datatype World = World(
    sel: Selection,
    attached: set<string>,     // controllers present in the system
    phase: Phase,
    todo: seq<string>,         // enumerated, not yet tried
    queue: seq<Event>,         // udev events not yet handled
    build: Build,
    bound: set<string>,
    gadgets: seq<string>)      // one running gadget per entry

  function Boot(sel: Selection, attached: set<string>): World {
    World(sel, attached, Starting, [], [], NoBuild, {}, [])
  }

  /** `bind_one` up to the build, which is awaited: the controller must be wanted and still exist. */
  function Offer(w: World, name: string): World {
    if Wants(w.sel, name, w.bound) && name in w.attached then w.(build := Building(name, false)) else w
  }

  /** The end of the build. */
  function Built(w: World, ok: bool): World
    requires w.build.Building?
  {
    var done := w.(build := NoBuild);
    if ok then done.(bound := w.bound + {w.build.name}, gadgets := w.gadgets + [w.build.name]) else done
  }

  /** `bind_one` as a whole, when nothing else happens meanwhile. */
  function BindOne(w: World, name: string, ok: bool): World {
    var offered := Offer(w.(build := NoBuild), name);
    if offered.build.Building? then Built(offered, ok) else offered
  }

  function Without(names: seq<string>, name: string): seq<string> {
    if names == [] then [] else if names[0] == name then names[1..] else [names[0]] + Without(names[1..], name)
  }

  function UnbindOne(w: World, name: string): World {
    if name !in w.bound then w else w.(bound := w.bound - {name}, gadgets := Without(w.gadgets, name))
  }

  function HandleEvent(w: World, e: Event): World {
    match e case Add(name) => Offer(w, name) case Remove(name) => UnbindOne(w, name)
  }

  datatype Step =
    | Plug(name: string) | Unplug(name: string)   // the outside world
    | Listen | Enumerate(order: seq<string>) | BindNext | EndBinding | Handle
    | EndBuild(ok: bool)                          // a build only fails when its controller went away meanwhile

  predicate NoDup(s: seq<string>) { forall i, j :: 0 <= i < j < |s| ==> s[i] != s[j] }

  predicate Enabled(w: World, st: Step) {
    match st
    case Plug(name) => name !in w.attached
    case Unplug(name) => name in w.attached
    case Listen => w.phase.Starting?
    case Enumerate(order) => w.phase.Listening? && NoDup(order) && (set n | n in order) == w.attached
    case BindNext => w.phase.Binding? && w.build.NoBuild? && w.todo != []
    case EndBinding => w.phase.Binding? && w.build.NoBuild? && w.todo == []
    case Handle => w.phase.Running? && w.build.NoBuild? && w.queue != []
    case EndBuild(ok) => w.build.Building? && (!ok ==> w.build.gone)
  }

  function Notify(w: World, e: Event): seq<Event> {
    if w.phase.Starting? then w.queue else w.queue + [e]
  }

  function Do(w: World, st: Step): World
    requires Enabled(w, st)
  {
    match st
    case Plug(name) => w.(attached := w.attached + {name}, queue := Notify(w, Add(name)))
    case Unplug(name) =>
      w.(attached := w.attached - {name}, queue := Notify(w, Remove(name)),
         build := if w.build.Building? && w.build.name == name then Building(name, true) else w.build)
    case Listen => w.(phase := Listening)
    case Enumerate(order) => w.(phase := Binding, todo := order)
    case BindNext => Offer(w, w.todo[0]).(todo := w.todo[1..])
    case EndBinding => w.(phase := Running)
    case Handle => HandleEvent(w, w.queue[0]).(queue := w.queue[1..])
    case EndBuild(ok) => Built(w, ok)
  }

  predicate CanRun(w: World, steps: seq<Step>)
    decreases |steps|
  {
    steps == [] || (Enabled(w, steps[0]) && CanRun(Do(w, steps[0]), steps[1..]))
  }

  function Run(w: World, steps: seq<Step>): World
    requires CanRun(w, steps)
    decreases |steps|
  {
    if steps == [] then w else Run(Do(w, steps[0]), steps[1..])
  }

  // --- Tracked gadgets ----------------------------------------------------------

  /** The gadget list and the bound set name the same controllers, without duplicates. */
  ghost predicate IndexAgrees(w: World) {
    && NoDup(w.gadgets) && (forall n :: n in w.gadgets <==> n in w.bound)
    && (w.build.Building? ==> w.build.name !in w.bound)
  }

  lemma {:induction false} WithoutNames(names: seq<string>, name: string)
    requires NoDup(names)
    ensures NoDup(Without(names, name))
    ensures forall n :: n in Without(names, name) <==> n in names && n != name
  {
    if names != [] {
      assert names == [names[0]] + names[1..];
      WithoutNames(names[1..], name);
      assert forall n :: n in names <==> n == names[0] || n in names[1..];
      if names[0] == name {
        assert name !in names[1..];
      } else {
        var rest := Without(names[1..], name);
        assert forall n :: n in [names[0]] + rest <==> n == names[0] || n in rest;
        assert names[0] !in names[1..];
      }
    }
  }

  lemma StepKeepsIndex(w: World, st: Step)
    requires IndexAgrees(w) && Enabled(w, st)
    ensures IndexAgrees(Do(w, st))
  {
    if st.Handle? && w.queue[0].Remove? {
      WithoutNames(w.gadgets, w.queue[0].name);
    }
  }

  // --- Agreement with the attached controllers -------------------------------------

  /** The last queued event about `name`, if any. */
  datatype LastEvent = Nothing | Added | Removed

  function Last(queue: seq<Event>, name: string): LastEvent {
    if queue == [] then Nothing
    else
      var e := queue[|queue| - 1];
      if e.name == name then (if e.Add? then Added else Removed) else Last(queue[..|queue| - 1], name)
  }

  lemma LastSnoc(queue: seq<Event>, e: Event, name: string)
    ensures Last(queue + [e], name) == if e.name == name then (if e.Add? then Added else Removed) else Last(queue, name)
  {
    assert (queue + [e])[..|queue|] == queue;
  }

  /** Handling the head does not change what the last event about a name says, except when it was that event. */
  lemma {:induction false} LastTail(queue: seq<Event>, name: string)
    requires queue != []
    ensures Last(queue[1..], name) == Last(queue, name) ||
            (Last(queue[1..], name) == Nothing && queue[0].name == name
             && Last(queue, name) == if queue[0].Add? then Added else Removed)
    ensures queue[0].name != name ==> Last(queue[1..], name) == Last(queue, name)
    ensures queue[0].name == name ==> Last(queue, name) != Nothing
  {
    if |queue| > 1 {
      var front := queue[..|queue| - 1];
      LastTail(front, name);
      assert queue[1..][..|queue[1..]| - 1] == front[1..];
      assert queue[1..][|queue[1..]| - 1] == queue[|queue| - 1];
    }
  }

  predicate IsBuilding(w: World, name: string) { w.build.Building? && w.build.name == name }

  /** What is known about one controller at any moment. */
  ghost predicate Follows(w: World, name: string) {
    && (Last(w.queue, name) == Added ==> name in w.attached)
    && (Last(w.queue, name) == Removed ==> name !in w.attached)
    && (w.phase.Starting? || w.phase.Listening? ==> w.bound == {} && w.todo == [] && w.build.NoBuild?)
    && (w.phase.Starting? ==> w.queue == [])
    && (w.phase.Running? ==> w.todo == [])
    && NoDup(w.todo) && (name in w.bound || IsBuilding(w, name) ==> Selected(w.sel, name))
    && (IsBuilding(w, name) ==> name !in w.bound && name !in w.todo && (w.build.gone ==> Last(w.queue, name) != Nothing))
    && (Last(w.queue, name) == Nothing && (w.phase.Binding? || w.phase.Running?) ==>
          (if name in w.todo then name in w.attached && name !in w.bound
           else if IsBuilding(w, name) then name in w.attached
           else name in w.bound <==> name in w.attached && Selected(w.sel, name)))
  }

  lemma HotplugFollows(w: World, st: Step, name: string)
    requires Follows(w, name) && Enabled(w, st) && (st.Plug? || st.Unplug?)
    ensures Follows(Do(w, st), name)
  {
    LastSnoc(w.queue, if st.Plug? then Add(st.name) else Remove(st.name), name);
  }

  lemma BindNextFollows(w: World, name: string)
    requires Follows(w, name) && Enabled(w, BindNext) && !w.sel.First?
    ensures Follows(Do(w, BindNext), name)
  {
    assert w.todo == [w.todo[0]] + w.todo[1..];
  }

  lemma HandleFollows(w: World, name: string)
    requires Follows(w, name) && Enabled(w, Handle) && !w.sel.First?
    ensures Follows(Do(w, Handle), name)
  {
    LastTail(w.queue, name);
  }

  lemma StepFollows(w: World, st: Step, name: string)
    requires Follows(w, name) && Enabled(w, st) && !w.sel.First?
    ensures Follows(Do(w, st), name)
  {
    match st
    case Plug(_) => HotplugFollows(w, st, name);
    case Unplug(_) => HotplugFollows(w, st, name);
    case BindNext => BindNextFollows(w, name);
    case Handle => HandleFollows(w, name);
    case Listen =>
    case Enumerate(_) =>
    case EndBinding =>
    case EndBuild(_) =>
  }

  lemma {:induction false} RunFollows(w: World, steps: seq<Step>, name: string)
    requires Follows(w, name) && IndexAgrees(w) && CanRun(w, steps) && !w.sel.First?
    ensures Follows(Run(w, steps), name) && IndexAgrees(Run(w, steps)) && Run(w, steps).sel == w.sel
    decreases |steps|
  {
    if steps != [] {
      StepFollows(w, steps[0], name);
      StepKeepsIndex(w, steps[0]);
      RunFollows(Do(w, steps[0]), steps[1..], name);
    }
  }

  /** Startup is over, no event is outstanding and nothing is being built. */
  predicate Settled(w: World) { w.phase.Running? && w.queue == [] && w.build.NoBuild? }

  /**
   Main result.  For `All` and `Named`, in every interleaving of startup, builds and hotplug, whenever startup
   is over, the udev queue is empty and no build is under way, exactly the attached selected controllers are bound, each with one gadget.
   */
  lemma BoundIsAttachedSelected(sel: Selection, attached: set<string>, steps: seq<Step>)
    requires !sel.First? && CanRun(Boot(sel, attached), steps)
    ensures var w := Run(Boot(sel, attached), steps);
            && NoDup(w.gadgets)
            && (forall n :: n in w.gadgets <==> n in w.bound)
            && (Settled(w) ==>
                  forall n :: n in w.bound <==> n in w.attached && Selected(sel, n))
  {
    var w := Run(Boot(sel, attached), steps);
    RunFollows(Boot(sel, attached), steps, "");
    forall n | Settled(w) ensures n in w.bound <==> n in w.attached && Selected(sel, n) {
      RunFollows(Boot(sel, attached), steps, n);
    }
  }

  // --- The `first` selection ----------------------------------------------------------

  /** What holds of one controller under every selection. */
  ghost predicate Attends(w: World, name: string) {
    && (Last(w.queue, name) == Added ==> name in w.attached)
    && (Last(w.queue, name) == Removed ==> name !in w.attached)
    && (Last(w.queue, name) == Nothing && (name in w.bound || IsBuilding(w, name)) ==> name in w.attached)
    && (w.phase.Starting? || w.phase.Listening? ==> w.bound == {} && w.todo == [] && w.build.NoBuild?)
    && (w.phase.Starting? ==> w.queue == [])
    && (w.phase.Running? ==> w.todo == [])
    && NoDup(w.todo)
    && (IsBuilding(w, name) && w.build.gone ==> Last(w.queue, name) != Nothing)
  }

  lemma HotplugAttends(w: World, st: Step, name: string)
    requires Attends(w, name) && Enabled(w, st) && (st.Plug? || st.Unplug?)
    ensures Attends(Do(w, st), name)
  {
    LastSnoc(w.queue, if st.Plug? then Add(st.name) else Remove(st.name), name);
  }

  lemma HandleAttends(w: World, name: string)
    requires Attends(w, name) && Enabled(w, Handle)
    ensures Attends(Do(w, Handle), name)
  {
    LastTail(w.queue, name);
  }

  lemma StepAttends(w: World, st: Step, name: string)
    requires Attends(w, name) && Enabled(w, st)
    ensures Attends(Do(w, st), name)
  {
    match st
    case Plug(_) => HotplugAttends(w, st, name);
    case Unplug(_) => HotplugAttends(w, st, name);
    case Handle => HandleAttends(w, name);
    case _ =>
  }

  lemma {:induction false} RunAttends(w: World, steps: seq<Step>, name: string)
    requires Attends(w, name) && CanRun(w, steps)
    ensures Attends(Run(w, steps), name)
    decreases |steps|
  {
    if steps != [] {
      StepAttends(w, steps[0], name);
      RunAttends(Do(w, steps[0]), steps[1..], name);
    }
  }

  /** Under every selection, `First` included, with no event outstanding a gadget only runs on a controller that is there. */
  lemma BoundIsAttached(sel: Selection, attached: set<string>, steps: seq<Step>)
    requires CanRun(Boot(sel, attached), steps)
    ensures var w := Run(Boot(sel, attached), steps); w.queue == [] ==> w.bound <= w.attached
  {
    var w := Run(Boot(sel, attached), steps);
    forall n | w.queue == [] && n in w.bound ensures n in w.attached { RunAttends(Boot(sel, attached), steps, n); }
  }

  lemma {:induction false} FirstBindsAtMostOne(w: World, steps: seq<Step>)
    requires w.sel.First? && |w.bound| <= 1 && (w.build.Building? ==> w.bound == {}) && CanRun(w, steps)
    ensures |Run(w, steps).bound| <= 1
    decreases |steps|
  {
    if steps != [] {
      var next := Do(w, steps[0]);
      if steps[0].Handle? && w.queue[0].Remove? && w.queue[0].name in w.bound {
        assert w.bound == next.bound + {w.queue[0].name};
      }
      FirstBindsAtMostOne(next, steps[1..]);
    }
  }

  /** The controller a step offers to `bind_one`, if it is there and not bound. */
  predicate Offers(w: World, st: Step, name: string)
    requires Enabled(w, st)
  {
    && name in w.attached && name !in w.bound
    && (match st
        case BindNext => w.todo[0] == name
        case Handle => w.queue[0] == Add(name)
        case _ => false)
  }

  /** Whether `name` counts as passed over after `st`. */
  predicate PassedNow(w: World, st: Step, name: string, passed: bool)
    requires Enabled(w, st)
  {
    if Offers(w, st, name) then !Wants(w.sel, name, w.bound) else passed
  }

  /** `name` was offered while another controller was bound, and has not been taken since. */
  predicate PassedOver(w: World, steps: seq<Step>, name: string, before: bool)
    requires CanRun(w, steps)
    decreases |steps|
  {
    if steps == [] then before
    else
      PassedOver(Do(w, steps[0]), steps[1..], name, PassedNow(w, steps[0], name, before))
  }

  /** A controller that is there and was offered is bound, being built, or passed over. */
  ghost predicate Answered(w: World, name: string, passed: bool) {
    && Attends(w, name)
    && (name in w.bound || IsBuilding(w, name) ==> !passed)
    && (Last(w.queue, name) == Nothing && (w.phase.Binding? || w.phase.Running?) && name !in w.todo && name in w.attached ==>
          name in w.bound || IsBuilding(w, name) || passed)
  }

  lemma HotplugAnswers(w: World, st: Step, name: string, passed: bool)
    requires Answered(w, name, passed) && Enabled(w, st) && (st.Plug? || st.Unplug?)
    ensures Answered(Do(w, st), name, passed)
  {
    HotplugAttends(w, st, name);
    LastSnoc(w.queue, if st.Plug? then Add(st.name) else Remove(st.name), name);
  }

  lemma BindNextAnswers(w: World, name: string, passed: bool)
    requires Answered(w, name, passed) && Enabled(w, BindNext)
    ensures Answered(Do(w, BindNext), name, PassedNow(w, BindNext, name, passed))
  {
    assert w.todo == [w.todo[0]] + w.todo[1..];
  }

  lemma HandleAnswers(w: World, name: string, passed: bool)
    requires Answered(w, name, passed) && Enabled(w, Handle)
    ensures Answered(Do(w, Handle), name, PassedNow(w, Handle, name, passed))
  {
    HandleAttends(w, name);
    LastTail(w.queue, name);
  }

  lemma OtherAnswers(w: World, st: Step, name: string, passed: bool)
    requires Answered(w, name, passed) && Enabled(w, st)
    requires st.Listen? || st.Enumerate? || st.EndBinding? || st.EndBuild?
    ensures Answered(Do(w, st), name, passed)
  {
  }

  lemma StepAnswers(w: World, st: Step, name: string, passed: bool)
    requires Answered(w, name, passed) && Enabled(w, st)
    ensures Answered(Do(w, st), name, PassedNow(w, st, name, passed))
  {
    hide Answered, Do, Enabled, Wants;
    match st
    case Plug(_) => HotplugAnswers(w, st, name, passed);
    case Unplug(_) => HotplugAnswers(w, st, name, passed);
    case BindNext => BindNextAnswers(w, name, passed);
    case Handle => HandleAnswers(w, name, passed);
    case _ => OtherAnswers(w, st, name, passed);
  }

  lemma {:induction false} RunAnswers(w: World, steps: seq<Step>, name: string, passed: bool)
    requires Answered(w, name, passed) && CanRun(w, steps)
    ensures Answered(Run(w, steps), name, PassedOver(w, steps, name, passed))
    decreases |steps|
  {
    hide Answered, PassedNow;
    if steps != [] {
      StepAnswers(w, steps[0], name, passed);
      RunAnswers(Do(w, steps[0]), steps[1..], name, PassedNow(w, steps[0], name, passed));
    }
  }

  /**
   `First` does not fall back to a controller it passed over.  Whenever things have settled, nothing is bound if
   and only if every attached controller was passed over when it was last offered.
   */
  lemma FirstUnboundExactly(attached: set<string>, steps: seq<Step>)
    requires CanRun(Boot(First, attached), steps)
    ensures var boot := Boot(First, attached);
            var w := Run(boot, steps);
            Settled(w) ==> (w.bound == {} <==> forall n :: n in w.attached ==> PassedOver(boot, steps, n, false))
  {
    var boot := Boot(First, attached);
    var w := Run(boot, steps);
    if Settled(w) {
      forall n ensures Answered(w, n, PassedOver(boot, steps, n, false)) && Last([], n) == Nothing {
        RunAnswers(boot, steps, n, false);
      }
      if w.bound != {} {
        var n :| n in w.bound;
        NothingToBind(boot, steps, n);
        assert n in w.attached && !PassedOver(boot, steps, n, false);
      } else {
        forall n | n in w.attached ensures PassedOver(boot, steps, n, false) { NothingToBind(boot, steps, n); }
      }
    }
  }

  lemma NothingToBind(w: World, steps: seq<Step>, name: string)
    requires Attends(w, name) && CanRun(w, steps)
    ensures Run(w, steps).phase.Running? ==> Run(w, steps).todo == []
  {
    RunAttends(w, steps, name);
  }

  /** `steps` leads from `w` to `e`. */
  ghost predicate Reaches(w: World, steps: seq<Step>, e: World) { CanRun(w, steps) && Run(w, steps) == e }

  lemma Halt(w: World)
    ensures Reaches(w, [], w)
  {
  }

  lemma {:induction false} Onward(w: World, steps: seq<Step>, e: World, st: Step)
    requires Reaches(w, steps, e) && Enabled(e, st)
    ensures Reaches(w, steps + [st], Do(e, st))
    decreases |steps|
  {
    hide Do, Enabled;
    if steps == [] {
      assert steps + [st] == [st] && [st][1..] == [];
      Halt(Do(e, st));
    } else {
      assert (steps + [st])[1..] == steps[1..] + [st];
      Onward(Do(w, steps[0]), steps[1..], e, st);
    }
  }

  /** Two controllers are attached and the first of them gets bound. */
  lemma FirstIsBound(a: string, b: string)
    requires a != b
    ensures Reaches(Boot(First, {a, b}), [Listen, Enumerate([a, b]), BindNext, EndBuild(true)],
                    World(First, {a, b}, Binding, [b], [], NoBuild, {a}, [a]))
  {
    hide Reaches;
    var w := Boot(First, {a, b});
    Halt(w);
    Onward(w, [], w, Listen);
    var w1 := Do(w, Listen);
    assert (set n | n in [a, b]) == {a, b};
    Onward(w, [] + [Listen], w1, Enumerate([a, b]));
    var w2 := Do(w1, Enumerate([a, b]));
    Onward(w, [] + [Listen] + [Enumerate([a, b])], w2, BindNext);
    var w3 := Do(w2, BindNext);
    Onward(w, [] + [Listen] + [Enumerate([a, b])] + [BindNext], w3, EndBuild(true));
    assert Do(w3, EndBuild(true)) == World(First, {a, b}, Binding, [b], [], NoBuild, {a}, [a]);
    assert [] + [Listen] + [Enumerate([a, b])] + [BindNext] + [EndBuild(true)] ==
           [Listen, Enumerate([a, b]), BindNext, EndBuild(true)];
  }

  /** Such a run: the bound controller goes away, and the other one, attached all along, stays unbound. */
  lemma FirstDoesNotFallBack(a: string, b: string)
    requires a != b
    ensures var start := [Listen, Enumerate([a, b]), BindNext, EndBuild(true)];
            var steps := start + [BindNext] + [EndBinding] + [Unplug(a)] + [Handle];
            && CanRun(Boot(First, {a, b}), steps)
            && var w := Run(Boot(First, {a, b}), steps);
               Settled(w) && w.bound == {} && w.attached == {b}
  {
    hide Run, CanRun;
    var boot, start := Boot(First, {a, b}), [Listen, Enumerate([a, b]), BindNext, EndBuild(true)];
    FirstIsBound(a, b);
    var w := World(First, {a, b}, Binding, [b], [], NoBuild, {a}, [a]);
    Onward(boot, start, w, BindNext);
    var w1 := Do(w, BindNext);
    Onward(boot, start + [BindNext], w1, EndBinding);
    var w2 := Do(w1, EndBinding);
    Onward(boot, start + [BindNext] + [EndBinding], w2, Unplug(a));
    var w3 := Do(w2, Unplug(a));
    Onward(boot, start + [BindNext] + [EndBinding] + [Unplug(a)], w3, Handle);
    assert w3.queue == [Remove(a)] && Do(w3, Handle).queue == [];
    assert Do(w3, Handle).bound == {} && Do(w3, Handle).attached == {b};
  }

  // --- The daemon's own state ------------------------------------------------------------

  /** The bound set and the gadget vector, as `serve_until` updates them. */
  class Tracker {
    const sel: Selection
    var bound: set<string>
    var gadgets: seq<string>

    /** This tracker in a system where `attached` are present. */
    function In(attached: set<string>): World
      reads this
    {
      World(sel, attached, Running, [], [], NoBuild, bound, gadgets)
    }

    constructor (sel: Selection)
      ensures this.sel == sel && bound == {} && gadgets == []
    {
      this.sel := sel;
      bound, gadgets := {}, [];
    }

    /** `ok` is whether the build succeeded. */
    method Bind(name: string, attached: set<string>, ok: bool)
      modifies this
      ensures In(attached) == BindOne(old(In(attached)), name, ok)
    {
      if !Wants(sel, name, bound) { return; }
      if name !in attached { return; }
      if !ok { return; }
      gadgets := gadgets + [name];
      bound := bound + {name};
    }

    method Unbind(name: string, attached: set<string>)
      requires IndexAgrees(In(attached))
      modifies this
      ensures In(attached) == UnbindOne(old(In(attached)), name) && IndexAgrees(In(attached))
    {
      if name !in bound { return; }
      WithoutNames(gadgets, name);
      bound := bound - {name};
      var pos := 0;
      while pos < |gadgets| && gadgets[pos] != name
        invariant 0 <= pos <= |gadgets| && name !in gadgets[..pos]
        invariant gadgets == old(gadgets) && bound == old(bound) - {name}
      {
        assert gadgets[..pos + 1] == gadgets[..pos] + [gadgets[pos]];
        pos := pos + 1;
      }
      assert name in gadgets;
      assert gadgets[..|gadgets|] == gadgets;
      WithoutAt(gadgets, pos);
      gadgets := gadgets[..pos] + gadgets[pos + 1..];
    }

    /** Startup binding of the enumerated controllers. */
    method BindExisting(names: seq<string>, attached: set<string>)
      requires IndexAgrees(In(attached))
      modifies this
      ensures IndexAgrees(In(attached))
      ensures !sel.First? ==>
                forall n :: n in bound <==> n in old(bound) || (n in names && n in attached && Selected(sel, n))
    {
      for i := 0 to |names|
        invariant IndexAgrees(In(attached))
        invariant !sel.First? ==>
                    forall n :: n in bound <==> n in old(bound) || (n in names[..i] && n in attached && Selected(sel, n))
      {
        assert names[..i + 1] == names[..i] + [names[i]];
        Bind(names[i], attached, true);
      }
      assert names[..|names|] == names;
    }
  }

  lemma {:induction false} WithoutAt(names: seq<string>, pos: nat)
    requires pos < |names| && names[pos] !in names[..pos]
    ensures Without(names, names[pos]) == names[..pos] + names[pos + 1..]
  {
    if pos > 0 {
      assert names[0] == names[..pos][0];
      assert names[1..][..pos - 1] == names[..pos][1..];
      WithoutAt(names[1..], pos - 1);
      assert names[..pos] == [names[0]] + names[1..][..pos - 1];
      assert names[1..][pos..] == names[pos + 1..];
    }
  }
}
