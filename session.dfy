/** The session: the component's state and refs as the fields of one object,
    and its handlers (upload, start, stop, click, scroll, detection tick,
    report) as methods on it. */
module Session {
  import opened EventLog
  import opened Emotion
  import opened Aggregates
  import opened Recorder

  /** The three screens; the flow only moves forward. */
  datatype Step = Setup | Testing | Report

  class App {
    var step: Step
    var hasImage: bool
    var faceDetected: bool
    var emotions: Scores
    var scrollDepth: Depth
    var events: seq<Event>
    var points: seq<ClickPoint>
    var testing: bool
    var startTime: int

    /** The session invariant: the testing gate is on exactly on the testing
        screen, click ids are 1..N in click order, nothing is recorded before
        testing starts, and there are no more logged INTERACTIONs than
        recorded click points. */
    ghost predicate Valid()
      reads this
    {
      && (testing <==> step == Testing)
      && (forall i | 0 <= i < |points| :: points[i].id == i + 1)
      && (step == Setup ==> events == [] && points == [])
      && |Filter(events, Interaction)| <= |points|
    }

    constructor ()
      ensures Valid()
      ensures step == Setup && !hasImage && !faceDetected && !testing && startTime == 0
      ensures emotions == Scores(0.0, 0.0, 0.0, 0.0) && scrollDepth == Percent(0)
      ensures events == [] && points == []
    {
      step := Setup;
      hasImage := false;
      faceDetected := false;
      emotions := Scores(0.0, 0.0, 0.0, 0.0);
      scrollDepth := Percent(0);
      events := [];
      points := [];
      testing := false;
      startTime := 0;
    }

    /** The upload control, shown on the setup screen only, sets the stimulus image. */
    method UploadImage()
      requires Valid()
      modifies this`hasImage
      ensures Valid()
      ensures hasImage == (old(hasImage) || step == Setup)
    {
      if step == Setup {
        hasImage := true;
      }
    }

    /** logEvent: append the candidate stamped `now`, unless the last entry
        has the same type and is less than DebounceMs old. */
    method LogEvent(p: Pending, now: int)
      modifies this`events
      ensures events == Logged(old(events), p, now, startTime)
    {
      if |events| > 0 {
        var last := events[|events| - 1];
        if last.kind == p.kind && now - last.timestamp < DebounceMs {
          return;
        }
      }
      events := events + [Stamp(p, now, startTime)];
    }

    /** START TESTING: enabled only on the setup screen with an image set and
        a face detected; records the start time and opens the testing gate. */
    method Start(now: int)
      requires Valid()
      modifies this`startTime, this`testing, this`step
      ensures Valid()
      ensures old(step) == Setup && hasImage && faceDetected ==>
        step == Testing && testing && startTime == now
      ensures !(old(step) == Setup && hasImage && faceDetected) ==>
        step == old(step) && testing == old(testing) && startTime == old(startTime)
    {
      if step == Setup && hasImage && faceDetected {
        startTime := now;
        testing := true;
        step := Testing;
      }
    }

    /** STOP: from the testing screen, closes the gate and shows the report. */
    method Stop()
      requires Valid()
      modifies this`testing, this`step
      ensures Valid()
      ensures old(step) == Testing ==> step == Report && !testing
      ensures old(step) != Testing ==> step == old(step) && testing == old(testing)
    {
      if step == Testing {
        testing := false;
        step := Report;
      }
    }

    /** A click on the stimulus at (x, y) percent: while testing, record the
        next numbered point and log an INTERACTION through the debounce. */
    method Click(x: real, y: real, now: int)
      requires Valid()
      modifies this`points, this`events
      ensures Valid()
      ensures !testing ==> points == old(points) && events == old(events)
      ensures testing ==> points == old(points) + [ClickPoint(x, y, |old(points)| + 1)]
      ensures testing ==>
        events == Logged(old(events), Pending(Interaction, ClickDetail(|points|)), now, startTime)
    {
      if !testing {
        return;
      }
      var n := |points| + 1;
      points := points + [ClickPoint(x, y, n)];
      var p := Pending(Interaction, ClickDetail(n));
      LogEvent(p, now);
      LoggedCount(old(events), p, now, startTime, Interaction);
    }

    /** A scroll of the stimulus viewport, which exists on the testing screen
        only: the depth is recomputed from the current values alone. */
    method Scroll(scrollTop: nat, clientHeight: nat, scrollHeight: nat)
      requires Valid()
      modifies this`scrollDepth
      ensures Valid()
      ensures step == Testing ==> scrollDepth == ScrollDepth(scrollTop, clientHeight, scrollHeight)
      ensures step != Testing ==> scrollDepth == old(scrollDepth)
    {
      if step == Testing {
        scrollDepth := ScrollDepth(scrollTop, clientHeight, scrollHeight);
      }
    }

    /** One detection tick. `ready` says the video is playing and the model is
        loaded; `faces` is the blendshape list per detected face. With a face,
        the metrics are republished and, while testing, the four emotions are
        offered to the log in their fixed order. */
    method Tick(ready: bool, faces: seq<seq<Category>>, now: int)
      requires Valid()
      modifies this`faceDetected, this`emotions, this`events
      ensures Valid()
      ensures !ready ==>
        faceDetected == old(faceDetected) && emotions == old(emotions) && events == old(events)
      ensures ready && |faces| == 0 ==>
        !faceDetected && emotions == old(emotions) && events == old(events)
      ensures ready && |faces| > 0 ==> faceDetected && emotions == Classify(faces[0])
      ensures ready && |faces| > 0 && testing ==>
        events == LogAll(old(events), Candidates(emotions), now, startTime)
      ensures !testing ==> events == old(events)
    {
      if !ready {
        return;
      }
      if |faces| == 0 {
        faceDetected := false;
        return;
      }
      faceDetected := true;
      var s := Classify(faces[0]);
      emotions := s;
      if testing {
        LogEmotions(s, now);
        TickKeepsInteractions(old(events), s, now, startTime);
      }
    }

    /** The testing-only part of a tick: offer DELIGHT, FRUSTRATION, SURPRISE
        and CONFUSION, in that order, each when its metric is above its threshold. */
    method LogEmotions(s: Scores, now: int)
      modifies this`events
      ensures events == LogAll(old(events), Candidates(s), now, startTime)
    {
      ghost var offered: seq<Pending> := [];
      if s.happy > DelightThreshold {
        LogEvent(Smile, now);
        LogAllSnoc(old(events), offered, Smile, now, startTime);
        offered := offered + [Smile];
      }
      assert events == LogAll(old(events), offered, now, startTime);
      if s.angry > FrustrationThreshold {
        LogEvent(BrowFurrow, now);
        LogAllSnoc(old(events), offered, BrowFurrow, now, startTime);
        offered := offered + [BrowFurrow];
      }
      assert events == LogAll(old(events), offered, now, startTime);
      if s.surprised > SurpriseThreshold {
        LogEvent(EyebrowRaise, now);
        LogAllSnoc(old(events), offered, EyebrowRaise, now, startTime);
        offered := offered + [EyebrowRaise];
      }
      assert events == LogAll(old(events), offered, now, startTime);
      if s.confused > ConfusionThreshold {
        LogEvent(Squinting, now);
        LogAllSnoc(old(events), offered, Squinting, now, startTime);
        offered := offered + [Squinting];
      }
      assert events == LogAll(old(events), offered, now, startTime);
      assert offered == Candidates(s);
    }

    /** The report's DELIGHT and FRUSTRATION figures: the number of logged
        entries of each type. */
    method ReportCounts() returns (delight: nat, frustration: nat)
      ensures delight == multiset(Kinds(events))[Delight]
      ensures frustration == multiset(Kinds(events))[Frustration]
    {
      delight := |Filter(events, Delight)|;
      frustration := |Filter(events, Frustration)|;
      FilterCountsOccurrences(events, Delight);
      FilterCountsOccurrences(events, Frustration);
    }
  }

  /** A tick never logs an INTERACTION, so it leaves their count as it was. */
  lemma TickKeepsInteractions(log: seq<Event>, s: Scores, now: int, start: int)
    ensures Filter(LogAll(log, Candidates(s), now, start), Interaction) == Filter(log, Interaction)
  {
    CandidatesOrdered(s);
    LogAllKeepsOtherCounts(log, Candidates(s), now, start, Interaction);
  }

  /** Two ticks with happy = 0.25 and nothing else: 900 ms apart they log one
      DELIGHT, 2000 ms apart they log two. */
  lemma DebounceExample(start: int)
    ensures var s := Scores(0.25, 0.0, 0.0, 0.0);
      var once := LogAll([], Candidates(s), 2000, start);
      && |LogAll(once, Candidates(s), 2900, start)| == 1
      && |LogAll(once, Candidates(s), 4000, start)| == 2
  {
    var s := Scores(0.25, 0.0, 0.0, 0.0);
    assert Candidates(s) == [Smile];
    assert [Smile] == [] + [Smile];
    LogAllSnoc([], [], Smile, 2000, start);
    var once := LogAll([], [Smile], 2000, start);
    LogAllSnoc(once, [], Smile, 2900, start);
    LogAllSnoc(once, [], Smile, 4000, start);
  }

  /** A session driven through setup: image uploaded, a face seen by a tick,
      START pressed at 1000 ms. */
  method StartedSession() returns (app: App)
    ensures fresh(app) && app.Valid()
    ensures app.step == Testing && app.testing && app.startTime == 1000
    ensures app.events == [] && app.points == []
  {
    app := new App();
    app.UploadImage();
    app.Tick(true, [[]], 900);
    app.Start(1000);
  }

  /** Three clicks at 2000, 2500 and 5000 ms after that start: three numbered
      points, but the second click's INTERACTION falls inside the debounce
      window of the first and is not logged. */
  method ClickScenario() returns (pts: seq<ClickPoint>, log: seq<Event>)
    ensures pts == [ClickPoint(10.0, 10.0, 1), ClickPoint(50.0, 50.0, 2), ClickPoint(90.0, 90.0, 3)]
    ensures |log| == 2
    ensures log[0].kind == Interaction && log[0].detail == ClickDetail(1)
    ensures log[1].kind == Interaction && log[1].detail == ClickDetail(3)
  {
    var app := StartedSession();
    app.Click(10.0, 10.0, 2000);
    var first := Event(1000, 2000, Interaction, ClickDetail(1));
    assert app.events == [first];
    app.Click(50.0, 50.0, 2500);
    assert app.events == [first];
    app.Click(90.0, 90.0, 5000);
    assert app.events == [first, Event(4000, 5000, Interaction, ClickDetail(3))];
    pts, log := app.points, app.events;
  }
}
