/**
 The nightly image updater of `image-update.sh`. One run of the script is a method that changes the host's
 image tags, the container and the state file; which commands succeed each night is an input. The script runs
 under `set -e`, so a command that fails outside a condition ends the night where it stands.
 */
module ImageUpdate {
  import opened Common

  type ImageId = string

  /** What a night's commands do. Times and log lines are left out. */
  datatype Night = Night(
    lockFree: bool,             // flock -n 9
    imageNamed: bool,           // HERMES_IMAGE is set in .env
    pullOk: bool,
    pulled: ImageId,            // the base image ID after the pull
    inspectOk: bool,
    tagRollbackOk: bool,        // docker tag old rollback
    buildOk: bool,
    built: ImageId,             // the derived image the build tags
    upOk: bool,                 // compose up of the new image
    upLeft: Option<ImageId>,    // the container a failing up leaves behind
    installOk: bool,            // install -d for the state file
    healthy: nat -> bool,       // the i-th health poll of the new container
    writeOk: bool,              // writing the state file
    pruneOk: bool,
    tagDerivedOk: bool,         // docker tag rollback derived
    upAgainOk: bool,
    upAgainLeft: Option<ImageId>,
    healthyAgain: nat -> bool)

  const HEALTH_TIMEOUT: nat := 300
  const POLL_SECONDS: nat := 5
  const POLLS: nat := 60

  /** A container passes its health check if one of the polls that fit the timeout says so. */
  ghost predicate Passes(poll: nat -> bool) {
    exists i: nat :: i < POLLS && poll(i)
  }

  /** `wait_healthy`. */
  method WaitHealthy(poll: nat -> bool) returns (ok: bool, waited: nat)
    ensures ok <==> Passes(poll)
    ensures waited <= HEALTH_TIMEOUT
    ensures ok ==> waited < HEALTH_TIMEOUT && poll(waited / POLL_SECONDS)
                   && forall i: nat :: i < waited / POLL_SECONDS ==> !poll(i)
  {
    waited := 0;
    ghost var n: nat := 0;
    while waited < HEALTH_TIMEOUT
      invariant waited == POLL_SECONDS * n && n <= POLLS
      invariant forall i: nat :: i < n ==> !poll(i)
    {
      assert waited / POLL_SECONDS == n;
      if poll(waited / POLL_SECONDS) {
        return true, waited;
      }
      waited := waited + POLL_SECONDS;
      n := n + 1;
    }
    return false, waited;
  }

  // ----- the state of the host -----

  /** The host between two nights. `passed` records, for the proofs, every image whose container passed its check. */
  datatype State = State(
    base: Option<ImageId>,        // the local base image
    derived: Option<ImageId>,     // hermes-agent-sudo:arm64
    rollback: Option<ImageId>,    // hermes-agent-sudo:rollback
    container: Option<ImageId>,
    stateFile: Option<ImageId>,   // the handled base ID, if the file exists
    builds: seq<ImageId>,         // base IDs a build was started for, in order
    starts: seq<ImageId>,         // derived images a container was started from, in order
    passed: set<ImageId>)

  /** The recorded ID, or the ID before the pull if there is no file; the empty string stands for no image. */
  function Handled(s: State): ImageId {
    match s.stateFile
    case Some(id) => id
    case None => s.base.GetOr("")
  }

  /** The script gets as far as comparing image IDs. */
  predicate Pulls(o: Night) {
    o.lockFree && o.imageNamed && o.pullOk
  }

  predicate Reaches(s: State, o: Night) {
    Pulls(o) && o.inspectOk && o.pulled != Handled(s)
  }

  /** The build is started. */
  predicate Attempts(s: State, o: Night) {
    Reaches(s, o) && (s.derived.Some? ==> o.tagRollbackOk)
  }

  /** The new image's container is up. */
  predicate Starts(s: State, o: Night) {
    Attempts(s, o) && o.buildOk && o.upOk
  }

  /** One night, as a function of the host and the commands' outcomes. */
  ghost function Step(s: State, o: Night): State {
    if !Pulls(o) then s
    else
      var pulled := s.(base := Some(o.pulled));
      if !Reaches(s, o) then pulled
      else if s.derived.Some? && !o.tagRollbackOk then pulled
      else
        var tagged := pulled.(rollback := if s.derived.Some? then s.derived else s.rollback, builds := s.builds + [o.pulled]);
        if !o.buildOk then tagged
        else
          var built := tagged.(derived := Some(o.built), starts := s.starts + [o.built]);
          if !o.upOk then built.(container := o.upLeft)
          else if !o.installOk then built.(container := Some(o.built))
          else if Passes(o.healthy) then
            built.(container := Some(o.built), passed := s.passed + {o.built},
                   stateFile := if o.writeOk then Some(o.pulled) else s.stateFile)
          else if !o.writeOk then built.(container := Some(o.built))
          else RollBack(built.(container := Some(o.built), stateFile := Some(o.pulled)), s.derived, o)
  }

  /** The lines after an unhealthy new image, from the recorded ID on. */
  ghost function RollBack(s: State, oldDerived: Option<ImageId>, o: Night): State {
    if oldDerived.None? || !o.tagDerivedOk then s
    else
      var restored := s.(derived := s.rollback, starts := s.starts + [s.rollback.GetOr("")]);
      if !o.upAgainOk then restored.(container := o.upAgainLeft)
      else restored.(container := s.rollback,
                     passed := if Passes(o.healthyAgain) then s.passed + {s.rollback.GetOr("")} else s.passed)
  }

  /**
   The nights that report success: another run holds the lock, nothing new was pulled, or the new image passed its
   check, was recorded, and old images were pruned.
   */
  ghost predicate EndsWell(s: State, o: Night) {
    || !o.lockFree
    || (Pulls(o) && o.inspectOk && o.pulled == Handled(s))
    || (Starts(s, o) && o.installOk && Passes(o.healthy) && o.writeOk && o.pruneOk)
  }

  class Host {
    var base: Option<ImageId>
    var derived: Option<ImageId>
    var rollback: Option<ImageId>
    var container: Option<ImageId>
    var stateFile: Option<ImageId>
    ghost var builds: seq<ImageId>
    ghost var starts: seq<ImageId>
    ghost var passed: set<ImageId>

    ghost function View(): State
      reads this
    {
      State(base, derived, rollback, container, stateFile, builds, starts, passed)
    }

    /** The whole script. */
    method Update(o: Night) returns (exitCode: nat)
      modifies this
      ensures View() == Step(old(View()), o)
      ensures exitCode == 0 <==> EndsWell(old(View()), o)
    {
      if !o.lockFree {
        return 0;
      }
      if !o.imageNamed {
        return 1;
      }
      var oldBaseId := base.GetOr("");
      if !o.pullOk {
        return 1;
      }
      base := Some(o.pulled);
      if !o.inspectOk {
        return 1;
      }
      var handledId := stateFile.GetOr(oldBaseId);
      if o.pulled == handledId {
        return 0;
      }
      var oldDerived := derived;
      if oldDerived.Some? {
        if !o.tagRollbackOk {
          return 1;
        }
        rollback := oldDerived;
      }
      builds := builds + [o.pulled];
      if !o.buildOk {
        return 1;
      }
      derived := Some(o.built);
      starts := starts + [o.built];
      if !o.upOk {
        container := o.upLeft;
        return 1;
      }
      container := Some(o.built);
      if !o.installOk {
        return 1;
      }
      var ok, waited := WaitHealthy(o.healthy);
      if ok {
        passed := passed + {o.built};
        if !o.writeOk {
          return 1;
        }
        stateFile := Some(o.pulled);
        return if o.pruneOk then 0 else 1;
      }
      if !o.writeOk {
        return 1;
      }
      stateFile := Some(o.pulled);
      if oldDerived.None? {
        return 1;
      }
      if !o.tagDerivedOk {
        return 1;
      }
      derived := rollback;
      starts := starts + [rollback.GetOr("")];
      if !o.upAgainOk {
        container := o.upAgainLeft;
        return 1;
      }
      container := derived;
      ok, waited := WaitHealthy(o.healthyAgain);
      if ok {
        passed := passed + {rollback.GetOr("")};
      }
      return 1;
    }
  }

  ghost function Run(s: State, nights: seq<Night>): State {
    if nights == [] then s else Step(Run(s, nights[..|nights| - 1]), nights[|nights| - 1])
  }

  // ----- last known good -----

  /** The derived tag and the container are on one image, and it has passed a health check. */
  ghost predicate LastKnownGood(s: State) {
    s.derived.Some? && s.derived.value in s.passed && s.container == s.derived
  }

  /**
   The nights that end between the new image and the old one: `set -e` stops the script at the first `up`,
   at `install`, or, for an unhealthy image, at recording it, at retagging, or at the second `up`.
   */
  ghost predicate Stranded(s: State, o: Night) {
    && Attempts(s, o) && o.buildOk
    && (|| !o.upOk
        || !o.installOk
        || (!Passes(o.healthy) && (!o.writeOk || !o.tagDerivedOk || (!o.upAgainOk && o.upAgainLeft != s.derived))))
  }

  /** A night keeps the last known good exactly when it is not one of these (a build of an image not seen before). */
  lemma NightKeepsLastKnownGoodIff(s: State, o: Night)
    requires LastKnownGood(s) && o.built !in s.passed
    ensures LastKnownGood(Step(s, o)) <==> !Stranded(s, o)
  {
  }

  /** A night that is not stranded ends on the image it started with or on the new one after its check. */
  lemma NightEndsOnOneOfTwo(s: State, o: Night)
    requires LastKnownGood(s) && !Stranded(s, o)
    ensures LastKnownGood(Step(s, o))
    ensures s.passed <= Step(s, o).passed
    ensures || Step(s, o).derived == s.derived
            || (Starts(s, o) && Passes(o.healthy) && Step(s, o).derived == Some(o.built))
  {
  }

  /** None of these nights is stranded, each seen from the host it finds. */
  ghost predicate NeverStranded(s: State, nights: seq<Night>) {
    forall i :: 0 <= i < |nights| ==> !Stranded(Run(s, nights[..i]), nights[i])
  }

  /** Every command after a started build succeeds; health and the build itself may fail. */
  predicate CommandsSucceed(o: Night) {
    o.upOk && o.installOk && o.writeOk && o.tagDerivedOk && o.upAgainOk
  }

  lemma CommandsSucceedStrandNobody(s: State, nights: seq<Night>)
    requires forall i :: 0 <= i < |nights| ==> CommandsSucceed(nights[i])
    ensures NeverStranded(s, nights)
  {
  }

  lemma NeverStrandedBefore(s: State, nights: seq<Night>, n: nat)
    requires NeverStranded(s, nights) && n <= |nights|
    ensures NeverStranded(s, nights[..n])
  {
    forall i | 0 <= i < n ensures !Stranded(Run(s, nights[..n][..i]), nights[..n][i]) {
      assert nights[..n][..i] == nights[..i];
    }
  }

  /** Over all nights of which none is stranded the host stays on images that passed their health check, whatever upstream publishes. */
  lemma {:induction false} LastKnownGoodOverAllNights(s: State, nights: seq<Night>)
    requires LastKnownGood(s) && NeverStranded(s, nights)
    ensures LastKnownGood(Run(s, nights))
    ensures s.passed <= Run(s, nights).passed
  {
    if nights != [] {
      var last := |nights| - 1;
      NeverStrandedBefore(s, nights, last);
      LastKnownGoodOverAllNights(s, nights[..last]);
      NightEndsOnOneOfTwo(Run(s, nights[..last]), nights[last]);
    }
  }

  /** Each night builds an image that has not passed a check before. */
  ghost predicate BuildsAreNew(s: State, nights: seq<Night>) {
    forall i :: 0 <= i < |nights| ==> nights[i].built !in Run(s, nights[..i]).passed
  }

  /** And this is exact: the host is on its last known good after every night if and only if no night is stranded. */
  lemma LastKnownGoodEveryNightIff(s: State, nights: seq<Night>)
    requires LastKnownGood(s) && BuildsAreNew(s, nights)
    ensures (forall i :: 0 <= i <= |nights| ==> LastKnownGood(Run(s, nights[..i]))) <==> NeverStranded(s, nights)
  {
    if NeverStranded(s, nights) {
      forall i | 0 <= i <= |nights| ensures LastKnownGood(Run(s, nights[..i])) {
        NeverStrandedBefore(s, nights, i);
        LastKnownGoodOverAllNights(s, nights[..i]);
      }
    } else {
      var i :| 0 <= i < |nights| && Stranded(Run(s, nights[..i]), nights[i]);
      RunNext(s, nights, i);
      if LastKnownGood(Run(s, nights[..i])) {
        NightKeepsLastKnownGoodIff(Run(s, nights[..i]), nights[i]);
      }
    }
  }

  lemma RunNext(s: State, nights: seq<Night>, i: nat)
    requires i < |nights|
    ensures Run(s, nights[..i + 1]) == Step(Run(s, nights[..i]), nights[i])
  {
    assert nights[..i + 1][..i] == nights[..i];
  }

  /**
   A build is started exactly if no other run holds the lock, an image is named, the pull and the look at it succeed, the
   image is neither the recorded one nor, without a record, the one there was, and the running image can be tagged.
   */
  lemma BuildStartsIff(s: State, o: Night)
    ensures Step(s, o).builds == s.builds + (
              if && o.lockFree && o.imageNamed && o.pullOk && o.inspectOk
                 && (s.stateFile.Some? ==> o.pulled != s.stateFile.value)
                 && (s.stateFile == None && s.base.Some? ==> o.pulled != s.base.value)
                 && (s.stateFile == None && s.base == None ==> o.pulled != "")
                 && (s.derived.Some? ==> o.tagRollbackOk)
              then [o.pulled] else [])
    ensures Step(s, o).base == if o.lockFree && o.imageNamed && o.pullOk then Some(o.pulled) else s.base
    ensures Step(s, o).starts != s.starts ==> Step(s, o).builds != s.builds && o.buildOk
  {
  }

  // ----- where a started release ends -----

  /** A release that passes its check stays: tag and container are on it, and the image before it is kept for roll-back. */
  lemma HealthyReleaseStays(s: State, o: Night)
    requires Starts(s, o) && o.installOk && Passes(o.healthy)
    ensures var t := Step(s, o);
            && t.derived == t.container == Some(o.built) && t.passed == s.passed + {o.built}
            && t.rollback == (if s.derived.Some? then s.derived else s.rollback)
            && t.starts == s.starts + [o.built]
  {
  }

  /** One that fails is rolled back to the image before it, if there is one; it is started again, and checked again. */
  lemma UnhealthyReleaseIsRolledBack(s: State, o: Night)
    requires Starts(s, o) && o.installOk && !Passes(o.healthy) && o.writeOk && s.derived.Some? && o.tagDerivedOk && o.upAgainOk
    ensures var t := Step(s, o);
            && t.derived == t.container == t.rollback == s.derived && t.stateFile == Some(o.pulled)
            && t.starts == s.starts + [o.built, s.derived.value]
            && t.passed == (if Passes(o.healthyAgain) then s.passed + {s.derived.value} else s.passed)
  {
  }

  /** A first image has nothing to be rolled back to, whatever the roll-back tag still names: it stays, unchecked. */
  lemma FirstImageStays(s: State, o: Night)
    requires Starts(s, o) && o.installOk && !Passes(o.healthy) && o.writeOk && s.derived == None
    ensures var t := Step(s, o);
            && t.derived == t.container == Some(o.built) && t.rollback == s.rollback
            && t.starts == s.starts + [o.built] && t.passed == s.passed && t.stateFile == Some(o.pulled)
  {
  }

  // ----- which releases are built -----

  /**
   The state file is written by exactly the nights that start the release's container and can make the directory and
   write the file, healthy or not, and then it holds that release.
   */
  lemma StartedReleaseIsRecorded(s: State, o: Night)
    ensures Step(s, o).stateFile == if Starts(s, o) && o.installOk && o.writeOk then Some(o.pulled) else s.stateFile
  {
  }

  lemma {:induction false} FileKeepsUntilTheNextStart(s: State, nights: seq<Night>, i: nat, j: nat)
    requires i <= j <= |nights|
    requires forall k :: i <= k < j ==> !Starts(Run(s, nights[..k]), nights[k])
    ensures Run(s, nights[..j]).stateFile == Run(s, nights[..i]).stateFile
  {
    if i < j {
      FileKeepsUntilTheNextStart(s, nights, i, j - 1);
      StartedReleaseIsRecorded(Run(s, nights[..j - 1]), nights[j - 1]);
      RunNext(s, nights, j - 1);
    }
  }

  /**
   Over all nights: a release whose container was started is not even built again, healthy or not, until the
   container of another release has been started.
   */
  lemma StartedReleaseIsNotBuiltAgain(s: State, nights: seq<Night>, i: nat, j: nat)
    requires i < j < |nights|
    requires Starts(Run(s, nights[..i]), nights[i]) && nights[i].installOk && nights[i].writeOk
    requires forall k :: i < k < j ==> !Starts(Run(s, nights[..k]), nights[k])
    requires Attempts(Run(s, nights[..j]), nights[j])
    ensures nights[j].pulled != nights[i].pulled
  {
    StartedReleaseIsRecorded(Run(s, nights[..i]), nights[i]);
    RunNext(s, nights, i);
    FileKeepsUntilTheNextStart(s, nights, i + 1, j);
  }

  /** While upstream stays on the handled release, no number of nights builds, starts or changes anything. */
  lemma {:induction false} HandledReleaseIsSkipped(s: State, nights: seq<Night>, id: ImageId)
    requires s.stateFile == Some(id) || (s.stateFile == None && s.base == Some(id))
    requires forall i :: 0 <= i < |nights| && Pulls(nights[i]) ==> nights[i].pulled == id
    ensures Run(s, nights) == s.(base := Run(s, nights).base)
    ensures s.stateFile == None ==> Run(s, nights).base == Some(id)
  {
    if nights != [] {
      HandledReleaseIsSkipped(s, nights[..|nights| - 1], id);
    }
  }

  /** No build succeeds on these nights. */
  ghost predicate BuildsFail(s: State, nights: seq<Night>) {
    forall i :: 0 <= i < |nights| && Attempts(Run(s, nights[..i]), nights[i]) ==> !nights[i].buildOk
  }

  /** However many builds fail, the file, the derived tag and the container stay as they were, and nothing is started. */
  lemma {:induction false} FailedBuildsChangeNothing(s: State, nights: seq<Night>)
    requires BuildsFail(s, nights)
    ensures var t := Run(s, nights);
            t == s.(base := t.base, rollback := t.rollback, builds := t.builds)
    ensures s.builds <= Run(s, nights).builds
  {
    if nights != [] {
      var last := |nights| - 1;
      assert forall i :: 0 <= i < last ==> nights[..last][..i] == nights[..i];
      FailedBuildsChangeNothing(s, nights[..last]);
    }
  }

  /**
   A release a night took up is taken up again the next night if and only if the state file exists and that night
   did not write it.
   */
  lemma ReleaseIsTakenUpAgainIff(s: State, o: Night, next: Night)
    requires Reaches(s, o)
    requires Pulls(next) && next.inspectOk && next.pulled == o.pulled
    ensures Reaches(Step(s, o), next) <==> s.stateFile.Some? && Step(s, o).stateFile == s.stateFile
  {
  }

  /**
   The next night, with the same release upstream, builds again after a failed build if and only if the state file
   exists, as far as the night before the build goes: the running image, if any, can be tagged.
   */
  lemma FailedBuildIsRetriedIffFileExists(s: State, o: Night, next: Night)
    requires Attempts(s, o) && !o.buildOk
    requires Pulls(next) && next.inspectOk && next.pulled == o.pulled
    ensures Attempts(Step(s, o), next) <==> s.stateFile.Some? && (s.derived.Some? ==> next.tagRollbackOk)
    ensures Attempts(Step(s, o), next) ==> Step(Step(s, o), next).builds == s.builds + [o.pulled, o.pulled]
  {
  }

  /** On a first-ever run, a release whose night ends without writing the file is never taken up again: the pull has already moved the baseline. */
  lemma UnrecordedFirstRunIsFinal(s: State, o: Night, nights: seq<Night>)
    requires s.stateFile == None && Pulls(o) && Step(s, o).stateFile == None
    requires forall i :: 0 <= i < |nights| && Pulls(nights[i]) ==> nights[i].pulled == o.pulled
    ensures Run(Step(s, o), nights) == Step(s, o)
  {
    HandledReleaseIsSkipped(Step(s, o), nights, o.pulled);
  }

  /** That goes for a failed build, and for a failed first `up`, which leaves the tag on an image that is then never checked. */
  lemma FirstFailureIsNeverRetried(s: State, o: Night, nights: seq<Night>)
    requires s.stateFile == None && Attempts(s, o) && !(o.buildOk && o.upOk)
    requires forall i :: 0 <= i < |nights| && Pulls(nights[i]) ==> nights[i].pulled == o.pulled
    ensures var t := Run(Step(s, o), nights);
            && t.builds == s.builds + [o.pulled]
            && t.derived == (if o.buildOk then Some(o.built) else s.derived)
            && t.container == (if o.buildOk then o.upLeft else s.container)
            && t.passed == s.passed
  {
    UnrecordedFirstRunIsFinal(s, o, nights);
  }

  /** A failing first `up` breaks the last known good: the tag is on an image nothing has checked. */
  lemma FailingUpBreaksLastKnownGood() returns (s: State, o: Night)
    ensures LastKnownGood(s) && !LastKnownGood(Step(s, o))
    ensures Attempts(s, o) && o.buildOk && !o.upOk
  {
    s := State(Some("b1"), Some("d1"), None, Some("d1"), Some("b1"), [], [], {"d1"});
    o := Night(true, true, true, "b2", true, true, true, "d2", false, Some("d1"), true, (i: nat) => true, true, true, true, true, None,
               (i: nat) => true);
  }

  // ----- the good tag -----

  /** Some tag still names an image that has passed a health check. */
  ghost predicate GoodTagged(s: State) {
    (s.derived.Some? && s.derived.value in s.passed) || (s.rollback.Some? && s.rollback.value in s.passed)
  }

  /** An image the night starts passes its check: the new one, or after a recorded roll-back the old one. */
  ghost predicate EndsChecked(s: State, o: Night) {
    && Starts(s, o) && o.installOk
    && (Passes(o.healthy) || (o.writeOk && o.tagDerivedOk && o.upAgainOk && Passes(o.healthyAgain)))
  }

  /** A night that finds the derived tag on an unchecked image, tags that one for roll-back, and checks nothing good in exchange. */
  ghost predicate LosesGoodTag(s: State, o: Night) {
    s.derived.Some? && s.derived.value !in s.passed && Attempts(s, o) && !EndsChecked(s, o)
  }

  /** These are exactly the nights that lose the last good tag (for a build of an image not seen before). */
  lemma NightLosesGoodTagIff(s: State, o: Night)
    requires GoodTagged(s) && o.built !in s.passed
    ensures GoodTagged(Step(s, o)) <==> !LosesGoodTag(s, o)
  {
  }

  /** While the derived tag is good, no single night can lose it, whatever fails and whatever it builds. */
  lemma OneNightKeepsAGoodTag(s: State, o: Night)
    requires s.derived.Some? && s.derived.value in s.passed
    ensures GoodTagged(Step(s, o))
  {
  }

  /** No night loses the good tag, each seen from the host it finds. */
  ghost predicate NeverLosesGoodTag(s: State, nights: seq<Night>) {
    forall i :: 0 <= i < |nights| ==> !LosesGoodTag(Run(s, nights[..i]), nights[i])
  }

  lemma {:induction false} GoodTagUntil(s: State, nights: seq<Night>, n: nat)
    requires GoodTagged(s) && BuildsAreNew(s, nights) && NeverLosesGoodTag(s, nights) && n <= |nights|
    ensures GoodTagged(Run(s, nights[..n]))
  {
    if n == 0 {
      assert nights[..0] == [];
    } else {
      GoodTagUntil(s, nights, n - 1);
      RunNext(s, nights, n - 1);
      NightLosesGoodTagIff(Run(s, nights[..n - 1]), nights[n - 1]);
    }
  }

  /** Over all nights: some tag names a checked image after every night if and only if no night is one of these. */
  lemma GoodTagEveryNightIff(s: State, nights: seq<Night>)
    requires GoodTagged(s) && BuildsAreNew(s, nights)
    ensures (forall i :: 0 <= i <= |nights| ==> GoodTagged(Run(s, nights[..i]))) <==> NeverLosesGoodTag(s, nights)
  {
    if NeverLosesGoodTag(s, nights) {
      forall i | 0 <= i <= |nights| ensures GoodTagged(Run(s, nights[..i])) {
        GoodTagUntil(s, nights, i);
      }
    } else {
      var i :| 0 <= i < |nights| && LosesGoodTag(Run(s, nights[..i]), nights[i]);
      RunNext(s, nights, i);
      if GoodTagged(Run(s, nights[..i])) {
        NightLosesGoodTagIff(Run(s, nights[..i]), nights[i]);
      }
    }
  }

  /** The first stranded night does not yet lose the good tag; only a later one can. */
  lemma FirstStrandedNightKeepsAGoodTag(s: State, nights: seq<Night>, n: nat)
    requires LastKnownGood(s) && n < |nights| && NeverStranded(s, nights[..n])
    ensures GoodTagged(Run(s, nights[..n])) && GoodTagged(Run(s, nights[..n + 1]))
  {
    LastKnownGoodOverAllNights(s, nights[..n]);
    OneNightKeepsAGoodTag(Run(s, nights[..n]), nights[n]);
    RunNext(s, nights, n);
  }

  /** After a stranded night even a night whose build fails loses the good tag: the unchecked image takes the rollback tag before the build. */
  lemma GoodTagCanBeLost() returns (s: State, nights: seq<Night>)
    ensures LastKnownGood(s) && s.derived == Some("d1") && |nights| == 2
    ensures !nights[0].upOk && !nights[1].buildOk && CommandsSucceed(nights[1])
    ensures var t := Run(s, nights);
            && t.derived == t.rollback == Some("d2")
            && t.passed == {"d1"} && !GoodTagged(t)
  {
    s := State(Some("b1"), Some("d1"), None, Some("d1"), Some("b1"), [], [], {"d1"});
    var one := Night(true, true, true, "b2", true, true, true, "d2", false, Some("d1"), true, (i: nat) => true, true, true, true, true, None,
                     (i: nat) => true);
    var two := Night(true, true, true, "b3", true, true, false, "d3", true, None, true, (i: nat) => false, true, true, true, true, None,
                     (i: nat) => false);
    nights := [one, two];
    assert nights[..1] == [one] && nights[..1][..0] == [];
    assert Run(s, nights[..1]) == Step(s, one);
    assert Run(s, nights) == Step(Step(s, one), two);
  }
}
