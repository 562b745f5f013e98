/**
 * Rotating a starter tenant's call secret (platform/src/tenant-upload.ts,
 * rotateCallSecret; platform/src/keys.ts, starterCallSecrets): the new secret
 * waits beside the current one, is uploaded to the tenant's Worker, then takes
 * its place. Any number of rotations, each of which may stop anywhere, its
 * upload taking effect or not whether or not its answer arrives.
 */
module SecretRotation {
  import opened Common

  /** Where a rotation is: its secret stored beside the current one, or uploaded and answered. */
  datatype Phase = Waiting(secret: nat) | Uploaded(secret: nat)

  /** tenant_call_secrets, the secret the tenant's Worker holds, and the rotations under way. */
  datatype World = World(current: nat, next: Option<nat>, worker: nat, unused: nat, rotations: map<nat, Phase>)

  datatype Event =
    | StoreNext(rotation: nat)
    | Upload(rotation: nat, lands: bool, answered: bool)
    | Promote(rotation: nat)
    | Stop(rotation: nat)

  predicate Enabled(w: World, e: Event) {
    match e
    case StoreNext(r) => r !in w.rotations
    case Upload(r, lands, answered) => r in w.rotations && w.rotations[r].Waiting? && (answered ==> lands)
    case Promote(r) => r in w.rotations && w.rotations[r].Uploaded?
    case Stop(r) => r in w.rotations
  }

  function Apply(w: World, e: Event): World
    requires Enabled(w, e)
  {
    match e
    case StoreNext(r) => w.(next := Some(w.unused), unused := w.unused + 1,
        rotations := w.rotations[r := Waiting(w.unused)])
    case Upload(r, lands, answered) =>
      var secret := w.rotations[r].secret;
      w.(worker := if lands then secret else w.worker,
         rotations := if answered then w.rotations[r := Uploaded(secret)] else w.rotations - {r})
    case Promote(r) =>
      var secret := w.rotations[r].secret;
      var v := w.(rotations := w.rotations - {r});
      if w.next == Some(secret) then v.(current := secret, next := None) else v
    case Stop(r) => w.(rotations := w.rotations - {r})
  }

  /** The platform accepts what the tenant's Worker signs. */
  predicate Accepted(w: World, secret: nat) { secret == w.current || w.next == Some(secret) }

  predicate WorkerAccepted(w: World) { Accepted(w, w.worker) }

  predicate Settled(w: World) { w.next.None? && w.worker == w.current && w.rotations == map[] && w.current < w.unused }

  // ----- one rotation at a time --------------------------------------------------

  /** A rotation starts only with no other under way, and while the Worker holds the current secret. */
  predicate Careful(w: World, e: Event) { e.StoreNext? ==> w.rotations == map[] && w.worker == w.current }

  predicate Inv(w: World) {
    && w.current < w.unused && (w.next.Some? ==> w.current < w.next.value < w.unused) && w.worker < w.unused
    && WorkerAccepted(w)
    && (forall r, s | r in w.rotations && s in w.rotations :: r == s)
    && (forall r | r in w.rotations ::
        w.next == Some(w.rotations[r].secret) && (w.rotations[r].Uploaded? ==> w.worker == w.rotations[r].secret))
  }

  ghost predicate RunsCarefully(w: World, events: seq<Event>)
    decreases |events|
  {
    events == [] || (Enabled(w, events[0]) && Careful(w, events[0]) && RunsCarefully(Apply(w, events[0]), events[1..]))
  }

  predicate Runs(w: World, events: seq<Event>)
    decreases |events|
  {
    events == [] || (Enabled(w, events[0]) && Runs(Apply(w, events[0]), events[1..]))
  }

  function After(w: World, events: seq<Event>): World
    requires Runs(w, events)
    decreases |events|
  {
    if events == [] then w else After(Apply(w, events[0]), events[1..])
  }

  lemma StepInv(w: World, e: Event)
    requires Inv(w) && Enabled(w, e) && Careful(w, e)
    ensures Inv(Apply(w, e))
  {
  }

  lemma {:induction false} RunInv(w: World, events: seq<Event>)
    requires Inv(w) && RunsCarefully(w, events)
    ensures Runs(w, events) && Inv(After(w, events))
    decreases |events|
  {
    if events != [] {
      StepInv(w, events[0]);
      RunInv(Apply(w, events[0]), events[1..]);
    }
  }

  /**
   * From a settled tenant, through any number of rotations begun one at a time
   * while the Worker holds the current secret, stopped anywhere, uploads landing
   * or not and answered or not: the Worker's secret is always the stored
   * current or next one, and with none waiting it is the current one.
   */
  lemma WorkerStaysAccepted(start: World, events: seq<Event>)
    requires Settled(start) && RunsCarefully(start, events)
    ensures Runs(start, events) && WorkerAccepted(After(start, events))
    ensures After(start, events).next.None? ==> After(start, events).worker == After(start, events).current
  {
    RunInv(start, events);
  }

  /**
   * Completing a rotation makes its secret the only one accepted, and the Worker
   * holds it: the old one never is again.
   */
  lemma CompletionRetiresOld(w: World, r: nat)
    requires Inv(w) && Enabled(w, Promote(r))
    ensures var v := Apply(w, Promote(r));
            v.current == v.worker == w.rotations[r].secret && !Accepted(v, w.current) && forall s | Accepted(v, s) ::
                s == v.worker
  {
  }

  /** What careful rotations can lead to. */
  ghost predicate Reachable(w: World) {
    exists start, events :: Settled(start) && RunsCarefully(start, events) && Runs(start, events)
        && After(start, events) == w
  }

  lemma ReachableInv(w: World)
    requires Reachable(w)
    ensures Inv(w)
  {
    var start, events :| Settled(start) && RunsCarefully(start, events) && Runs(start, events)
        && After(start, events) == w;
    RunInv(start, events);
  }

  /** The Worker may hold the waiting secret, its rotation's upload landed and its answer lost. */
  function Unanswered(current: nat, next: nat): World { World(current, Some(next), next, next + 1, map[]) }

  lemma UnansweredIsReachable(current: nat, next: nat)
    requires current < next
    ensures Reachable(Unanswered(current, next))
  {
    var start := World(current, None, current, next, map[]);
    var events := [StoreNext(0), Upload(0, true, false)];
    var one := Apply(start, StoreNext(0));
    var two := Apply(one, Upload(0, true, false));
    assert two == Unanswered(current, next);
    events := Traced(start, events);
  }

  /** Secrets are numbered as they are made, so a waiting one is newer than the current one. */
  predicate RowOk(current: nat, next: Option<nat>) { next.Some? ==> current < next.value }

  /**
   * Beginning a rotation keeps what the Worker signs accepted, wherever careful
   * rotations have led this stored row's tenant.
   */
  ghost predicate SafeToBegin(current: nat, next: Option<nat>) {
    forall w, r | Reachable(w) && w.current == current && w.next == next && r !in w.rotations ::
        WorkerAccepted(Apply(w, StoreNext(r)))
  }

  /** Exactly when it is safe to begin, as the stored row alone can tell: when no secret is waiting. */
  lemma BeginningIsSafeIff(current: nat, next: Option<nat>)
    requires RowOk(current, next)
    ensures SafeToBegin(current, next) <==> next.None?
  {
    if next.Some? {
      UnansweredIsReachable(current, next.value);
      assert !WorkerAccepted(Apply(Unanswered(current, next.value), StoreNext(0)));
    } else {
      forall w, r | Reachable(w) && w.current == current && w.next == next && r !in w.rotations
        ensures WorkerAccepted(Apply(w, StoreNext(r)))
      {
        ReachableInv(w);
      }
    }
  }

  /** A caller can tell beforehand: with no secret waiting it is always safe. */
  lemma NoneWaitingIsSafe(start: World, events: seq<Event>, r: nat)
    requires Settled(start) && RunsCarefully(start, events)
    requires Runs(start, events) && After(start, events).next.None? && Enabled(After(start, events), StoreNext(r))
    ensures WorkerAccepted(Apply(After(start, events), StoreNext(r)))
  {
    RunInv(start, events);
  }

  /**
   * And it is needed. An upload that landed but whose answer was lost leaves the
   * Worker on the waiting secret; beginning again replaces that one, and the
   * platform accepts nothing the Worker signs until the second upload lands.
   */
  lemma SecondRotationLocksOut()
    ensures var start := World(0, None, 0, 1, map[]);
            var events := [StoreNext(0), Upload(0, true, false), StoreNext(1)];
            Settled(start) && Runs(start, events) && !WorkerAccepted(After(start, events))
  {
    var start := World(0, None, 0, 1, map[]);
    var one := Apply(start, StoreNext(0));
    assert one == World(0, Some(1), 0, 2, map[0 := Waiting(1)]);
    var two := Apply(one, Upload(0, true, false));
    assert two == World(0, Some(1), 1, 2, map[]);
    var three := Apply(two, StoreNext(1));
    assert three == World(0, Some(2), 1, 3, map[1 := Waiting(2)]);
    var events := [StoreNext(0), Upload(0, true, false), StoreNext(1)];
    assert events[1..] == [Upload(0, true, false), StoreNext(1)] && events[1..][1..] == [StoreNext(1)]
        && events[1..][1..][1..] == [];
  }

  /**
   * Two rotations at once do the same, though each began from a settled Worker:
   * the first one's upload is the replaced secret.
   */
  lemma OverlappingRotationsLockOut()
    ensures var start := World(0, None, 0, 1, map[]);
            var events := [StoreNext(0), StoreNext(1), Upload(0, true, true), Promote(0)];
            Settled(start) && Runs(start, events) && !WorkerAccepted(After(start, events))
  {
    var start := World(0, None, 0, 1, map[]);
    var events := [StoreNext(0), StoreNext(1), Upload(0, true, true), Promote(0)];
    var two := Apply(Apply(start, StoreNext(0)), StoreNext(1));
    assert two == World(0, Some(2), 0, 3, map[0 := Waiting(1), 1 := Waiting(2)]);
    var three := Apply(two, Upload(0, true, true));
    assert three == World(0, Some(2), 1, 3, map[0 := Uploaded(1), 1 := Waiting(2)]);
    var four := Apply(three, Promote(0));
    assert four.current == 0 && four.next == Some(2) && four.worker == 1;
    assert events[1..] == [StoreNext(1), Upload(0, true, true), Promote(0)];
    assert events[1..][1..] == [Upload(0, true, true), Promote(0)] && events[1..][1..][1..] == [Promote(0)]
        && events[1..][1..][1..][1..] == [];
  }

  /**
   * A lock-out heals: whatever went before, a rotation that runs to its end with
   * nothing between leaves the Worker accepted.
   */
  lemma FullRotationHeals(w: World, r: nat)
    requires r !in w.rotations
    ensures Runs(w, [StoreNext(r), Upload(r, true, true), Promote(r)])
    ensures var v := After(w, [StoreNext(r), Upload(r, true, true), Promote(r)]); v.worker == v.current && v.next.None?
  {
    var events := [StoreNext(r), Upload(r, true, true), Promote(r)];
    assert events[1..] == [Upload(r, true, true), Promote(r)] && events[1..][1..] == [Promote(r)]
        && events[1..][1..][1..] == [];
    var one := Apply(w, StoreNext(r));
    var two := Apply(one, Upload(r, true, true));
    var three := Apply(two, Promote(r));
    assert Runs(three, []) && Runs(two, [Promote(r)]) && Runs(one, events[1..]);
    assert After(two, [Promote(r)]) == three && After(one, events[1..]) == three && After(w, events) == three;
  }

  // ----- one rotation as it executes -----------------------------------------------------

  /** A write works, or took effect with its answer lost, or failed before it took effect. */
  datatype Fate = Works | LosesAnswer | Fails

  class Tenant {
    var current: nat
    var next: Option<nat>
    var worker: nat
    var unused: nat

    function View(rotations: map<nat, Phase>): World
      reads this
    {
      World(current, next, worker, unused, rotations)
    }

    /**
     * Stores the new secret, uploads it, lets it take the current one's place,
     * and logs that: whatever fails on the way, a run of the steps above. A
     * rotation answered as failed may have rotated the secret all the same.
     */
    method RotateCallSecret(store: Fate, upload: Fate, promote: Fate, audit: Fate)
      returns (rotated: bool, ghost events: seq<Event>)
      modifies this
      ensures Runs(old(View(map[])), events) && After(old(View(map[])), events) == View(map[])
      ensures old(current) == old(worker) ==> RunsCarefully(old(View(map[])), events)
      ensures rotated <==> store == Works && upload == Works && promote == Works && audit == Works
      ensures if store == Works && upload == Works && promote != Fails
              then current == worker == old(unused) && next.None?
              else current == old(current) && next == if store == Fails then old(next) else Some(old(unused))
      ensures worker == if store == Works && upload != Fails then old(unused) else old(worker)
    {
      ghost var start := View(map[]);
      rotated, events := false, [];
      if store == Fails { return; }
      var secret := unused;
      next, unused := Some(secret), unused + 1;
      ghost var stored := View(map[0 := Waiting(secret)]);
      assert Apply(start, StoreNext(0)) == stored;
      if store == LosesAnswer { events := Traced(start, [StoreNext(0), Stop(0)]); return; }
      if upload == Fails { events := Traced(start, [StoreNext(0), Upload(0, false, false)]); return; }
      worker := secret;
      if upload == LosesAnswer { events := Traced(start, [StoreNext(0), Upload(0, true, false)]); return; }
      assert Apply(stored, Upload(0, true, true)) == View(map[0 := Uploaded(secret)]);
      if promote == Fails { events := Traced(start, [StoreNext(0), Upload(0, true, true), Stop(0)]); return; }
      if next == Some(secret) {
        current, next := secret, None;
      }
      events := Traced(start, [StoreNext(0), Upload(0, true, true), Promote(0)]);
      if promote == LosesAnswer { return; }
      rotated := audit == Works;
    }
  }

  /**
   * The steps after storing need nothing more than the step before: a trace of one
   * rotation runs, carefully when it began so.
   */
  lemma Traced(w: World, events: seq<Event>) returns (same: seq<Event>)
    requires w.rotations == map[] && 2 <= |events| <= 3 && events[0] == StoreNext(0)
    requires Enabled(Apply(w, events[0]), events[1]) && !events[1].StoreNext?
    requires |events| == 3 ==> Enabled(Apply(Apply(w, events[0]), events[1]), events[2]) && !events[2].StoreNext?
    ensures same == events && Runs(w, events) && (w.current == w.worker ==> RunsCarefully(w, events))
    ensures After(w, events) == var two := Apply(Apply(w, events[0]), events[1]);
            if |events| == 3 then Apply(two, events[2]) else two
  {
    same := events;
    var one := Apply(w, events[0]);
    var two := Apply(one, events[1]);
    var rest, last := events[1..], events[2..];
    assert rest[0] == events[1] && rest[1..] == last;
    if |events| == 3 {
      assert last[0] == events[2] && last[1..] == [];
      var three := Apply(two, events[2]);
      assert Runs(three, []) && RunsCarefully(three, []) && After(three, []) == three;
      assert Runs(two, last) && RunsCarefully(two, last) && After(two, last) == three;
    } else {
      assert last == [] && Runs(two, last) && RunsCarefully(two, last) && After(two, last) == two;
    }
    assert Runs(one, rest) && RunsCarefully(one, rest);
    assert After(one, rest) == After(Apply(one, rest[0]), rest[1..]) == After(two, last);
  }
}
