/** The option codec of the Jev policy (policies/jev.py:100-167): the options of a frame become the
    keys of a request, and an answer must name one of them. */
module Codec {
  import opened JsonModel
  import opened KernelTypes
  import opened KernelReduce
  import opened KernelGuards
  import opened KernelMachine

  function ControlName(c: Control): string {
    match c
    case Refresh => "refresh"
    case RequestFinish => "request_finish"
    case Blocked => "blocked"
    case Wait => "wait"
  }

  /** `Control(text)`; `None` is its ValueError. */
  function ControlNamed(text: string): (r: Option<Control>)
    ensures forall c :: r == Some(c) <==> ControlName(c) == text
  {
    if text == "refresh" then Some(Refresh)
    else if text == "request_finish" then Some(RequestFinish)
    else if text == "blocked" then Some(Blocked)
    else if text == "wait" then Some(Wait)
    else None
  }

  /** What the model is shown under one key. */
  datatype Criterion =
    | OfCandidate(action: string, effect: Effect, args: Fields)
    | OfControl(control: Control)

  function Shown(c: Candidate): Criterion { OfCandidate(c.description, c.effect, c.args) }

  type Criteria = map<string, Criterion>

  function AddCandidates(cs: seq<Candidate>): Criteria {
    if cs == [] then map[] else AddCandidates(cs[..|cs| - 1])[cs[|cs| - 1].id := Shown(cs[|cs| - 1])]
  }

  function AddControls(criteria: Criteria, controls: seq<Control>): Criteria {
    if controls == [] then criteria
    else
      var c := controls[|controls| - 1];
      AddControls(criteria, controls[..|controls| - 1])[ControlName(c) := OfControl(c)]
  }

  function CriteriaOf(f: Frame): Criteria { AddControls(AddCandidates(f.candidates), f.controls) }

  /** The criteria of `build_request`; `None` is its error for a frame without options. */
  method BuildRequest(f: Frame) returns (r: Option<Criteria>)
    ensures r == if CriteriaOf(f) == map[] then None else Some(CriteriaOf(f))
  {
    hide Shown, ControlName;
    var criteria: Criteria := map[];
    for i := 0 to |f.candidates|
      invariant criteria == AddCandidates(f.candidates[..i])
    {
      assert f.candidates[..i + 1][..i] == f.candidates[..i];
      criteria := criteria[f.candidates[i].id := Shown(f.candidates[i])];
    }
    assert f.candidates[..|f.candidates|] == f.candidates;
    for i := 0 to |f.controls|
      invariant criteria == AddControls(AddCandidates(f.candidates), f.controls[..i])
    {
      assert f.controls[..i + 1][..i] == f.controls[..i];
      criteria := criteria[ControlName(f.controls[i]) := OfControl(f.controls[i])];
    }
    assert f.controls[..|f.controls|] == f.controls;
    if criteria == map[] { return None; }
    return Some(criteria);
  }

  datatype ShapeError = NoAnswers | NoNextAction | NotAChoice | NotAString | NotAnOption | NotOffered

  datatype Reply = Parsed(decision: Decision) | Misshapen(why: ShapeError)

  function ParseChoice(f: Frame, chosen: string): Reply {
    var candidate := f.Find(chosen);
    if candidate.Some? then Parsed(Decision(f.frameId, Some(candidate.value.id), None))
    else
      var control := ControlNamed(chosen);
      if control.None? then Misshapen(NotAnOption)
      else if control.value !in f.controls then Misshapen(NotOffered)
      else Parsed(Decision(f.frameId, None, control))
  }

  function Member(j: Fields, key: string): Option<Json> { if key in j then Some(j[key]) else None }

  /** `parse_response`. */
  function ParseResponse(f: Frame, response: Fields): Reply {
    var answers := Member(response, "answers");
    if answers.None? || !answers.value.Obj? then Misshapen(NoAnswers)
    else
      var answer := Member(answers.value.fields, "next_action");
      if answer.None? || !answer.value.Obj? then Misshapen(NoNextAction)
      else if Member(answer.value.fields, "type") != Some(Str("choice")) then Misshapen(NotAChoice)
      else
        var chosen := Member(answer.value.fields, "choice");
        if chosen.None? || !chosen.value.Str? then Misshapen(NotAString) else ParseChoice(f, chosen.value.s)
  }

  /** The response that answers with one string. */
  function Answering(chosen: string): Fields {
    map["answers" := Obj(map["next_action" := Obj(map["type" := Str("choice"), "choice" := Str(chosen)])])]
  }

  // ---- option keys are unambiguous ----

  lemma IdsAreNotControls(i: nat, c: Control)
    ensures CandidateId(i) != ControlName(c)
  {
    assert CandidateId(i)[0] == 'a';
    assert ControlName(c)[0] != 'a';
  }

  /** Candidate ids of a frame are distinct, and never the name of a control. */
  ghost predicate Unambiguous(f: Frame) {
    && (forall i, j | 0 <= i < j < |f.candidates| :: f.candidates[i].id != f.candidates[j].id)
    && (forall i, c | 0 <= i < |f.candidates| :: f.candidates[i].id != ControlName(c))
  }

  lemma NormalizedAreNotControls(candidates: seq<Candidate>, x: Candidate, k: Control)
    requires x in Normalize(candidates, 1)
    ensures x.id != ControlName(k)
  {
    hide CandidateId, Normalize, ControlName;
    var all := Normalize(candidates, 1);
    var p :| 0 <= p < |all| && all[p] == x;
    IdsAreNotControls(1 + p, k);
  }

  /** Every frame the kernel builds is unambiguous: ids are "a" and a position. */
  lemma BuiltFramesAreUnambiguous(c: Setup, st: RuntimeState, candidates: seq<Candidate>, chars: nat)
    requires BuildFrame(c, st, candidates, chars).Some?
    ensures Unambiguous(BuildFrame(c, st, candidates, chars).value)
  {
    hide CandidateId, Offerable, Normalize, ControlName;
    var f := BuildFrame(c, st, candidates, chars).value;
    NormalizedAreDistinct(candidates);
    OfferableKeepsDistinct(Normalize(candidates, 1), st.UnresolvedKeys(), st.deadActions);
    forall i, k: Control | 0 <= i < |f.candidates| ensures f.candidates[i].id != ControlName(k) {
      assert f.candidates[i] in f.candidates;
      NormalizedAreNotControls(candidates, f.candidates[i], k);
    }
  }

  // ---- the round trip ----

  lemma {:induction false} CandidateKeys(cs: seq<Candidate>, key: string)
    ensures key in AddCandidates(cs) <==> exists i :: 0 <= i < |cs| && cs[i].id == key
    ensures key in AddCandidates(cs) ==>
              exists i :: 0 <= i < |cs| && cs[i].id == key && AddCandidates(cs)[key] == Shown(cs[i])
  {
    if cs != [] {
      var init := cs[..|cs| - 1];
      assert forall i | 0 <= i < |init| :: init[i] == cs[i];
      CandidateKeys(init, key);
    }
  }

  lemma {:induction false} ControlKeys(criteria: Criteria, controls: seq<Control>, key: string)
    ensures var r := AddControls(criteria, controls);
            var c := ControlNamed(key);
            if c.Some? && c.value in controls then key in r && r[key] == OfControl(c.value)
            else (key in r <==> key in criteria) && (key in r ==> r[key] == criteria[key])
  {
    if controls != [] {
      var init, last := controls[..|controls| - 1], controls[|controls| - 1];
      assert controls == init + [last];
      ControlKeys(criteria, init, key);
    }
  }

  /** What the model was shown under a key is what its answer is taken to mean. */
  ghost predicate Means(f: Frame, key: string, d: Decision) {
    && d.frameId == f.frameId
    && key in CriteriaOf(f)
    && match CriteriaOf(f)[key]
       case OfCandidate(action, effect, args) =>
         && d.control == None && d.candidateId == Some(key)
         && exists i :: 0 <= i < |f.candidates| && f.candidates[i].id == key && f.candidates[i].description == action
                        && f.candidates[i].effect == effect && f.candidates[i].args == args
       case OfControl(control) =>
         d.candidateId == None && d.control == Some(control) && Spells(key, control) && control in f.controls
  }

  /** The wire names of the controls. */
  predicate Spells(key: string, control: Control) {
    || (key == "refresh" && control == Refresh)
    || (key == "request_finish" && control == RequestFinish)
    || (key == "blocked" && control == Blocked)
    || (key == "wait" && control == Wait)
  }

  lemma NamesAreSpelled(key: string, control: Control)
    ensures ControlName(control) == key <==> Spells(key, control)
    ensures ControlNamed(key) == Some(control) <==> Spells(key, control)
  {
  }

  lemma FoundAt(f: Frame, i: nat)
    requires Unambiguous(f) && i < |f.candidates|
    ensures f.Find(f.candidates[i].id) == Some(f.candidates[i])
  {
    var found := f.Find(f.candidates[i].id);
    var k :| 0 <= k < |f.candidates| && f.candidates[k] == found.value;
  }

  /** Every key of the request parses back to exactly the option it was shown for, and every other
      string is refused. */
  lemma OptionsRoundTrip(f: Frame, chosen: string)
    requires Unambiguous(f)
    ensures var r := ParseResponse(f, Answering(chosen));
            && (r.Parsed? <==> chosen in CriteriaOf(f))
            && (r.Parsed? ==> Means(f, chosen, r.decision))
            && (r.Misshapen? ==> r.why == if exists k :: Spells(chosen, k) then NotOffered else NotAnOption)
  {
    hide AddCandidates, AddControls, ControlNamed, Shown, Spells, ControlName;
    forall k ensures ControlNamed(chosen) == Some(k) <==> Spells(chosen, k) { NamesAreSpelled(chosen, k); }
    AnswerIsRead(f, chosen);
    CandidateKeys(f.candidates, chosen);
    ControlKeys(AddCandidates(f.candidates), f.controls, chosen);
    if chosen in AddCandidates(f.candidates) {
      var i :| 0 <= i < |f.candidates| && f.candidates[i].id == chosen
            && AddCandidates(f.candidates)[chosen] == Shown(f.candidates[i]);
      FoundAt(f, i);
      ShownIs(f.candidates[i]);
    }
  }

  lemma ShownIs(c: Candidate)
    ensures Shown(c).OfCandidate? && Shown(c).action == c.description && Shown(c).effect == c.effect
            && Shown(c).args == c.args
  {
  }

  lemma AnswerIsRead(f: Frame, chosen: string)
    ensures ParseResponse(f, Answering(chosen)) == ParseChoice(f, chosen)
  {
  }

  /** No response at all is read as anything but one of the options that were asked about. */
  lemma OnlyOptionsAreParsed(f: Frame, response: Fields)
    requires Unambiguous(f) && ParseResponse(f, response).Parsed?
    ensures exists key :: key in CriteriaOf(f) && Means(f, key, ParseResponse(f, response).decision)
  {
    hide CriteriaOf, Means, ParseChoice;
    var answer := response["answers"].fields["next_action"].fields;
    var key := answer["choice"].s;
    assert ParseResponse(f, response) == ParseChoice(f, key);
    AnswerIsRead(f, key);
    OptionsRoundTrip(f, key);
  }

  /** What has to stand where in a response. */
  predicate HasObject(j: Fields, key: string) { key in j && j[key].Obj? }

  predicate HasAnswer(response: Fields) {
    HasObject(response, "answers") && HasObject(response["answers"].fields, "next_action")
  }

  predicate Chooses(response: Fields, key: string) {
    && HasAnswer(response)
    && var answer := response["answers"].fields["next_action"].fields;
       "type" in answer && answer["type"] == Str("choice") && "choice" in answer && answer["choice"] == Str(key)
  }

  /** A response is parsed exactly when it chooses one of the keys that were asked about, and means that
      option; otherwise the first thing that is missing is named. */
  lemma ResponseIsRead(f: Frame, response: Fields)
    requires Unambiguous(f)
    ensures var r := ParseResponse(f, response);
            && (r.Parsed? <==> exists key :: Chooses(response, key) && key in CriteriaOf(f))
            && (forall key | Chooses(response, key) ::
                  if r.Parsed? then Means(f, key, r.decision)
                  else r.why == if exists k :: Spells(key, k) then NotOffered else NotAnOption)
            && (r == Misshapen(NoAnswers) <==> !HasObject(response, "answers"))
            && (r == Misshapen(NoNextAction) <==> HasObject(response, "answers") && !HasAnswer(response))
            && (HasAnswer(response) ==>
                  var answer := response["answers"].fields["next_action"].fields;
                  && (r == Misshapen(NotAChoice) <==> !("type" in answer && answer["type"] == Str("choice")))
                  && (r == Misshapen(NotAString) <==>
                        && "type" in answer && answer["type"] == Str("choice")
                        && !("choice" in answer && answer["choice"].Str?)))
  {
    hide CriteriaOf, Means, ParseChoice, Spells;
    var r := ParseResponse(f, response);
    if HasAnswer(response) {
      var answer := response["answers"].fields["next_action"].fields;
      if "type" in answer && answer["type"] == Str("choice") && "choice" in answer && answer["choice"].Str? {
        var key := answer["choice"].s;
        assert Chooses(response, key) && r == ParseChoice(f, key);
        AnswerIsRead(f, key);
        OptionsRoundTrip(f, key);
      }
    }
  }

  // ---- composed with the kernel ----

  /** The rejections that validation may still have for a candidate of the current frame. */
  predicate Vetoed(st: RuntimeState, cand: Candidate, inp: StepInput) {
    || (cand.capability !in st.task.authorization && st.task.authorization != [])
    || (cand.observation.Some? && cand.observation.value != st.Revision())
    || st.observationStale || inp.environmentVeto || inp.hostVeto
  }

  /** A decision made from an answer to the current frame is never stale, malformed, out of frame or
      an unoffered control: a control is carried out, and a candidate can only be refused for reasons
      outside the frame. */
  lemma AnswersAreNeverMalformed(c: Setup, built: RuntimeState, candidates: seq<Candidate>, chars: nat,
                                 response: Fields, st: RuntimeState, v: View, inp: StepInput)
    requires BuildFrame(c, built, candidates, chars) == Some(v.frame)
    requires st.deadActions == built.deadActions && st.unresolved == built.unresolved
    requires ParseResponse(v.frame, response).Parsed?
    ensures var d := ParseResponse(v.frame, response).decision;
            var move := Next(c, st, Validating(v, d), inp);
            && move.Say?
            && (d.control.Some? ==> move.body == StepRecorded(ControlRecord(st, v.frame, d.control.value)))
            && (d.candidateId.Some? ==>
                  && v.frame.Find(d.candidateId.value).Some?
                  && (move.body.DecisionRejected? <==> Vetoed(st, v.frame.Find(d.candidateId.value).value, inp)))
            && (d.control.Some? <==> d.candidateId.None?)
  {
    hide BuildFrame, Refused;
    var d := ParseResponse(v.frame, response).decision;
    if d.candidateId.Some? {
      var cand := v.frame.Find(d.candidateId.value).value;
      FrameOffers(c, built, candidates, chars, cand);
      RefusedOnlyByVeto(st, cand, inp);
    }
  }

  lemma RefusedOnlyByVeto(st: RuntimeState, cand: Candidate, inp: StepInput)
    requires cand.key !in st.deadActions && cand.key !in st.UnresolvedKeys()
    ensures Refused(st, cand, inp.environmentVeto, inp.hostVeto) <==> Vetoed(st, cand, inp)
  {
  }

  lemma DriveOnce(c: Setup, m: Machine, inp: StepInput)
    ensures Drive(c, m, inp) == Drive(c, Make(m, Next(c, m.st, m.pc, inp)), inp)
  {
    hide Next;
  }

  lemma QuietEvents(st: RuntimeState, e: Event)
    requires (e.body.FrameBuilt? || e.body.DecisionMade?) && e.step == st.step
    ensures var n := Apply(st, e);
            && n.deadActions == st.deadActions && n.unresolved == st.unresolved && n.step == st.step
            && n.task == st.task && n.observation == st.observation && n.observationStale == st.observationStale
            && (e.body.FrameBuilt? ==> n.Visits(e.body.fingerprint) == st.Visits(e.body.fingerprint) + 1)
  {
  }

  /** The three moves between an offer and the validation of the answer. */
  lemma MovesToValidation(c: Setup, st: RuntimeState, o: Observation, f: Frame, inp: StepInput)
    requires inp.decision.Some?
    ensures BuildFrame(c, st, inp.candidates, inp.frameChars) == Some(f) ==>
              Next(c, st, Building(o), inp)
                == Say(st.step, FrameBuilt(f.frameId, f.fingerprint, |f.candidates|, |f.candidates| + |f.controls|),
                       Assessing(o, f))
    ensures st.Visits(f.fingerprint) < c.config.maxFrameVisits ==>
              Next(c, st, Assessing(o, f), inp) == Go(Deciding(View(o, f, QUIET)))
    ensures Next(c, st, Deciding(View(o, f, QUIET)), inp)
         == Say(st.step, DecisionMade(inp.decision.value), Validating(View(o, f, QUIET), inp.decision.value))
  {
    hide BuildFrame;
  }

  /** Between building the frame and validating the decision a step records two events, and neither
      touches the exclusions or the open operations. */
  lemma StepReachesValidation(c: Setup, m: Machine, o: Observation, f: Frame, inp: StepInput)
    requires m.pc == Building(o) && BuildFrame(c, m.st, inp.candidates, inp.frameChars) == Some(f) && inp.decision.Some?
    requires m.st.Visits(f.fingerprint) + 1 < c.config.maxFrameVisits
    ensures var offer := FrameBuilt(f.frameId, f.fingerprint, |f.candidates|, |f.candidates| + |f.controls|);
            var d := inp.decision.value;
            var n := Record(Record(m, m.st.step, offer, Assessing(o, f)), m.st.step, DecisionMade(d),
                            Validating(View(o, f, QUIET), d));
            && Drive(c, m, inp) == Drive(c, n, inp)
            && n.st.deadActions == m.st.deadActions && n.st.unresolved == m.st.unresolved && n.st.step == m.st.step
            && n.st.task == m.st.task && n.st.observation == m.st.observation
            && n.st.observationStale == m.st.observationStale
  {
    hide BuildFrame, Next, Apply, Drive;
    var offer := FrameBuilt(f.frameId, f.fingerprint, |f.candidates|, |f.candidates| + |f.controls|);
    var built := Record(m, m.st.step, offer, Assessing(o, f));
    MovesToValidation(c, m.st, o, f, inp);
    QuietEvents(m.st, Event(|m.log| + 1, m.st.step, offer));
    DriveOnce(c, m, inp);
    MovesToValidation(c, built.st, o, f, inp);
    DriveOnce(c, built, inp);
    DriveOnce(c, built.(pc := Deciding(View(o, f, QUIET))), inp);
    QuietEvents(built.st, Event(|built.log| + 1, built.st.step, DecisionMade(inp.decision.value)));
  }

  /** A step only ever adds to the log. */
  lemma {:induction false} DriveExtends(c: Setup, m: Machine, inp: StepInput)
    ensures m.log <= Drive(c, m, inp).log
    decreases m.pc.Begin?, Rank(m.pc)
  {
    hide Next, Apply;
    var move := Next(c, m.st, m.pc, inp);
    NextDescends(c, m.st, m.pc, inp);
    if !move.Stop? { DriveExtends(c, Make(m, move), inp); }
  }

  /** The next event of a step is the one its next move says. */
  lemma DriveSays(c: Setup, m: Machine, inp: StepInput)
    requires Next(c, m.st, m.pc, inp).Say?
    ensures var log, move := Drive(c, m, inp).log, Next(c, m.st, m.pc, inp);
            |log| > |m.log| && log[..|m.log|] == m.log && log[|m.log|].body == move.body
  {
    hide Next, Apply, Drive;
    var move := Next(c, m.st, m.pc, inp);
    var n := Make(m, move);
    DriveOnce(c, m, inp);
    DriveExtends(c, n, inp);
    assert n.log == m.log + [Event(|m.log| + 1, move.step, move.body)];
    assert Drive(c, m, inp).log[..|n.log|] == n.log;
  }

  lemma VetoesAgree(a: RuntimeState, b: RuntimeState, cand: Candidate, inp: StepInput)
    requires a.task == b.task && a.observation == b.observation && a.observationStale == b.observationStale
    ensures Vetoed(a, cand, inp) <==> Vetoed(b, cand, inp)
  {
  }

  /** So a policy that answers its frame through the codec is heard, in whatever state the step is: after
      the frame and the decision the log goes on with the record of the control it chose, or with a
      rejection exactly when validation vetoes the candidate it named. */
  lemma CodecPolicyIsHeard(c: Setup, m: Machine, o: Observation, f: Frame, response: Fields, inp: StepInput)
    requires m.pc == Building(o) && BuildFrame(c, m.st, inp.candidates, inp.frameChars) == Some(f)
    requires m.st.Visits(f.fingerprint) + 1 < c.config.maxFrameVisits
    requires ParseResponse(f, response).Parsed? && inp.decision == Some(ParseResponse(f, response).decision)
    ensures var log, k, d := Drive(c, m, inp).log, |m.log|, inp.decision.value;
            && |log| >= k + 3 && log[..k] == m.log && log[k].body.FrameBuilt? && log[k].body.frameId == f.frameId
            && log[k + 1].body == DecisionMade(d)
            && (d.control.Some? ==> log[k + 2].body == StepRecorded(ControlRecord(m.st, f, d.control.value)))
            && (d.candidateId.Some? ==>
                  f.Find(d.candidateId.value).Some?
                  && (log[k + 2].body.DecisionRejected? <==> Vetoed(m.st, f.Find(d.candidateId.value).value, inp)))
            && (d.control.Some? <==> d.candidateId.None?)
  {
    hide BuildFrame, Next, Apply, Drive, Refused, Vetoed, ParseResponse;
    var d := inp.decision.value;
    var offer := FrameBuilt(f.frameId, f.fingerprint, |f.candidates|, |f.candidates| + |f.controls|);
    var v := View(o, f, QUIET);
    var n := Record(Record(m, m.st.step, offer, Assessing(o, f)), m.st.step, DecisionMade(d), Validating(v, d));
    StepReachesValidation(c, m, o, f, inp);
    AnswersAreNeverMalformed(c, m.st, inp.candidates, inp.frameChars, response, n.st, v, inp);
    DriveSays(c, n, inp);
    var log := Drive(c, m, inp).log;
    assert log[|m.log|] == n.log[|m.log|] && log[|m.log| + 1] == n.log[|m.log| + 1];
    assert log[..|m.log|] == n.log[..|m.log|] == m.log;
    if d.candidateId.Some? { VetoesAgree(n.st, m.st, f.Find(d.candidateId.value).value, inp); }
  }
}
