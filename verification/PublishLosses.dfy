/**
 * Publishing while the main ledger file may be lost at any moment
 * (mobile/src/tiktok-ledger.ts:177-188 reopens the backup). Every tap stays unique
 * as long as each loss leaves all commits in the backup; a loss right behind the
 * COMMITTING mark does not, and the publication is posted again.
 */
module PublishLosses {
  import opened Common
  import opened TikTokLedger
  import opened TikTokPolicy
  import opened PublishProtocol
  import opened UnsafeCatches

  /** A step of the protocol, or the loss of the main file. */
  datatype Happening = Does(step: Step) | MainLost

  function Meet(w: World, h: Happening): World {
    match h
    case Does(step) => Apply(w, step)
    case MainLost => w.(disk := LoseMain(w.disk))
  }

  function Live(w: World, happenings: seq<Happening>): World {
    if happenings == [] then w
    else Meet(Live(w, happenings[..|happenings| - 1]), happenings[|happenings| - 1])
  }

  /** The catches are safe, and a lost file leaves every commit in the backup. */
  ghost predicate SafeHappening(w: World, h: Happening) {
    match h
    case Does(step) => SafeCatch(w, step)
    case MainLost => HoldsCommits(Reopen(LoseMain(w.disk)), Reopen(w.disk))
  }

  ghost predicate SafeLife(w: World, happenings: seq<Happening>) {
    forall i :: 0 <= i < |happenings| ==> SafeHappening(Live(w, happenings[..i]), happenings[i])
  }

  lemma {:induction false} LifeKeepsInv(disk: Disk, happenings: seq<Happening>)
    requires SafeLife(Initial(disk), happenings)
    ensures Inv(Live(Initial(disk), happenings))
    decreases |happenings|
  {
    hide SafeHappening, Meet, Inv;
    if happenings == [] {
      FreshInv(disk);
    } else {
      var prefix := happenings[..|happenings| - 1];
      assert forall i :: 0 <= i <= |prefix| ==> prefix[..i] == happenings[..i];
      LifeKeepsInv(disk, prefix);
      HappeningKeepsInv(Live(Initial(disk), prefix), happenings[|happenings| - 1]);
    }
  }

  lemma {:induction false} HappeningKeepsInv(w: World, h: Happening)
    requires Inv(w) && SafeHappening(w, h)
    ensures Inv(Meet(w, h))
  {
    hide Inv, Apply, SafeCatch, HoldsCommits, Reopen;
    match h
    case Does(step) => StepKeepsInv(w, step);
    case MainLost => SafeLossKeepsInv(w);
  }

  /** With losses among the happenings of a run, still at most one tap for a publication, and a journaled one. */
  lemma {:induction false} AtMostOneTapDespiteLosses(disk: Disk, happenings: seq<Happening>)
    requires SafeLife(Initial(disk), happenings)
    ensures AtMostOncePosted(Live(Initial(disk), happenings))
  {
    hide Live, SafeLife, Inv, AtMostOncePosted;
    LifeKeepsInv(disk, happenings);
    InvPostsAtMostOnce(Live(Initial(disk), happenings));
  }

  // ---------------------------------------------------- a loss that posts twice

  function Doing(steps: seq<Step>): seq<Happening> {
    seq(|steps|, i requires 0 <= i < |steps| => Does(steps[i]))
  }

  lemma {:induction false} DoingIsRunning(w: World, steps: seq<Step>)
    ensures Live(w, Doing(steps)) == Run(w, steps)
    decreases |steps|
  {
    hide Apply;
    if steps != [] {
      DoingIsRunning(w, steps[..|steps| - 1]);
      assert Doing(steps)[..|steps| - 1] == Doing(steps[..|steps| - 1]);
    }
  }

  lemma {:induction false} LiveConcat(w: World, a: seq<Happening>, b: seq<Happening>)
    ensures Live(w, a + b) == Live(Live(w, a), b)
    decreases |b|
  {
    hide Meet;
    if b == [] {
      assert a + b == a;
    } else {
      assert (a + b)[..|a + b| - 1] == a + b[..|b| - 1];
      LiveConcat(w, a, b[..|b| - 1]);
    }
  }

  lemma {:induction false} LosingWitness(w: World)
    ensures Live(w, [MainLost]) == w.(disk := LoseMain(w.disk))
  {
    assert [MainLost][..0] == [];
  }

  /** Task 1 posts from empty files. */
  lemma {:induction false} FirstPost() returns (steps: seq<Step>)
    ensures var w := Run(Initial(Disk(Missing, Missing)), steps);
      && w.taps == [1] && Uncommitted(Reopen(LoseMain(w.disk))) && Untouched(w, 2)
      && 1 in w.tasks && w.tasks[1] == Task(Publish, "publication")
  {
    hide Run, ClientStep, Uncommitted;
    var w0 := Initial(Disk(Missing, Missing));
    var start := [ClientStarts];
    RunNone(w0);
    RunOne(w0, [], ClientStarts);
    assert start == [] + [ClientStarts];
    var w1 := Run(w0, start);
    var prepare := CanPrepare(w1, 1);
    var w2 := Run(w1, prepare);
    var post := CanPost(w2, 1);
    steps := start + prepare + post;
    RunConcat(w0, start, prepare);
    RunConcat(w0, start + prepare, post);
  }

  lemma {:induction false} RestartWitness(w: World)
    ensures Run(w, [ClientCrashes, ClientStarts]) == w.(client := Some(Client(None, {}, None, map[], {})))
  {
    hide ClientStep;
    RunTwo(w, ClientCrashes, ClientStarts);
  }

  /**
   * A double post without any unsafe catch: task 1 posts, the main file is lost
   * right behind the mark that let it, and after a restart task 2 posts again.
   */
  lemma {:induction false} LostMarkPostsTwice() returns (happenings: seq<Happening>)
    ensures var w := Live(Initial(Disk(Missing, Missing)), happenings);
      && w.taps == [1, 2]
      && SamePublication(w.tasks, 1, 2)
    ensures !SafeLife(Initial(Disk(Missing, Missing)), happenings)
  {
    hide Run, Apply, Live, Meet, Uncommitted, SafeLife, AtMostOncePosted;
    var w0 := Initial(Disk(Missing, Missing));
    var first := FirstPost();
    var w1 := Run(w0, first);
    DoingIsRunning(w0, first);
    LosingWitness(w1);
    var w2 := Live(w1, [MainLost]);
    RestartWitness(w2);
    var restart := [ClientCrashes, ClientStarts];
    var w3 := Run(w2, restart);
    var prepare := CanPrepare(w3, 2);
    var w4 := Run(w3, prepare);
    var post := CanPost(w4, 2);
    RunConcat(w2, restart, prepare);
    RunConcat(w2, restart + prepare, post);
    DoingIsRunning(w2, restart + prepare + post);
    happenings := Doing(first) + [MainLost] + Doing(restart + prepare + post);
    LiveConcat(w0, Doing(first), [MainLost]);
    LiveConcat(w0, Doing(first) + [MainLost], Doing(restart + prepare + post));
    var w := Live(w0, happenings);
    if SafeLife(w0, happenings) {
      AtMostOneTapDespiteLosses(Disk(Missing, Missing), happenings);
      TwoTapsAreTooMany(w);
    }
  }

  lemma {:induction false} TwoTapsAreTooMany(w: World)
    requires w.taps == [1, 2] && SamePublication(w.tasks, 1, 2)
    ensures !AtMostOncePosted(w)
  {
    assert SamePublication(w.tasks, w.taps[0], w.taps[1]);
  }
}
