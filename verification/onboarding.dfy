/** The three-step onboarding wizard: choose a learning goal, choose a daily
    time, optionally answer two skill-check prompts, then save the choices on
    the user's document and go to the dashboard. */
module Onboarding {
  import opened Common
  import UseAuth

  datatype SkillResponse = SkillResponse(promptId: int, answer: string)

  datatype Wizard = Wizard(step: int, learningGoal: string, dailyGoalMinutes: int, responses: seq<SkillResponse>)

  /** The goal cards, the time options and the skill-check prompts the wizard offers. */
  const GoalIds: seq<string> := ["fluency", "interview", "travel", "academic"]
  const TimeOptions: seq<int> := [5, 10, 15]
  const PromptIds: seq<int> := [1, 2]

  /** The last step of the wizard. */
  const LastStep: int := 3

  function Initial(): (w: Wizard)
    ensures w.step == 1 && w.learningGoal == "" && w.dailyGoalMinutes == 10 && w.responses == []
  {
    Wizard(1, "", 10, [])
  }

  /** `handleGoalSelect`: only the goal changes. */
  function SelectGoal(w: Wizard, goal: string): (r: Wizard)
    ensures r.learningGoal == goal
    ensures r.step == w.step && r.dailyGoalMinutes == w.dailyGoalMinutes && r.responses == w.responses
  {
    w.(learningGoal := goal)
  }

  /** `handleTimeSelect`: only the daily minutes change. */
  function SelectTime(w: Wizard, minutes: int): (r: Wizard)
    ensures r.dailyGoalMinutes == minutes
    ensures r.step == w.step && r.learningGoal == w.learningGoal && r.responses == w.responses
  {
    w.(dailyGoalMinutes := minutes)
  }

  predicate HasPrompt(rs: seq<SkillResponse>, id: int) {
    exists i | 0 <= i < |rs| :: rs[i].promptId == id
  }

  /** `handleSkillCheckChange`: the answer of every entry for `id` is replaced in
      place; when there is none, a new entry is appended. */
  function Upsert(rs: seq<SkillResponse>, id: int, answer: string): (r: seq<SkillResponse>)
    ensures HasPrompt(rs, id) ==> |r| == |rs|
    ensures HasPrompt(rs, id) ==> forall i :: 0 <= i < |rs| ==>
              r[i] == (if rs[i].promptId == id then SkillResponse(id, answer) else rs[i])
    ensures !HasPrompt(rs, id) ==> r == rs + [SkillResponse(id, answer)]
  {
    var replaced := seq(|rs|, i requires 0 <= i < |rs| =>
      if rs[i].promptId == id then rs[i].(answer := answer) else rs[i]);
    if HasPrompt(rs, id) then replaced
    else
      assert replaced == rs;
      replaced + [SkillResponse(id, answer)]
  }

  predicate UniqueIds(rs: seq<SkillResponse>) {
    forall i, j :: 0 <= i < j < |rs| ==> rs[i].promptId != rs[j].promptId
  }

  /** The answer recorded for `id`, if any: that of the first entry for `id`. */
  function AnswerFor(rs: seq<SkillResponse>, id: int): (a: Option<string>)
    ensures a.None? <==> !HasPrompt(rs, id)
    ensures a.Some? ==> exists i :: 0 <= i < |rs| && rs[i] == SkillResponse(id, a.value)
  {
    if rs == [] then None
    else if rs[0].promptId == id then Some(rs[0].answer)
    else
      var a := AnswerFor(rs[1..], id);
      assert HasPrompt(rs[1..], id) ==> HasPrompt(rs, id) by {
        if HasPrompt(rs[1..], id) {
          var i :| 0 <= i < |rs[1..]| && rs[1..][i].promptId == id;
          assert rs[i + 1].promptId == id;
        }
      }
      a
  }

  /** Should several entries share `id`, the answer is that of the first. */
  lemma {:induction false} AnswerForFirst(rs: seq<SkillResponse>, id: int, i: int)
    requires 0 <= i < |rs| && rs[i].promptId == id
    requires forall j :: 0 <= j < i ==> rs[j].promptId != id
    ensures AnswerFor(rs, id) == Some(rs[i].answer)
  {
    if i > 0 {
      assert rs[1..][i - 1] == rs[i];
      AnswerForFirst(rs[1..], id, i - 1);
    }
  }

  /** After an upsert the prompt's answer is the new one, ids stay unique, and
      the answers to the other prompts are those from before. */
  lemma UpsertRecords(rs: seq<SkillResponse>, id: int, answer: string, other: int)
    requires UniqueIds(rs)
    ensures UniqueIds(Upsert(rs, id, answer))
    ensures AnswerFor(Upsert(rs, id, answer), id) == Some(answer)
    ensures other != id ==> AnswerFor(Upsert(rs, id, answer), other) == AnswerFor(rs, other)
  {
    var r := Upsert(rs, id, answer);
    if HasPrompt(rs, id) {
      var i :| 0 <= i < |rs| && rs[i].promptId == id;
      assert r[i] == SkillResponse(id, answer);
    } else {
      assert r[|rs|] == SkillResponse(id, answer);
    }
    AnswerUnique(r, id, answer);
    if other != id {
      match AnswerFor(rs, other)
      case None =>
        forall i | 0 <= i < |r| ensures r[i].promptId != other {
          if i < |rs| { assert rs[i].promptId != other; }
        }
      case Some(b) =>
        var i :| 0 <= i < |rs| && rs[i] == SkillResponse(other, b);
        assert r[i] == rs[i];
        AnswerUnique(r, other, b);
    }
  }

  /** With unique ids, an entry `(id, a)` is the answer for `id`. */
  lemma AnswerUnique(rs: seq<SkillResponse>, id: int, a: string)
    requires UniqueIds(rs)
    requires exists i :: 0 <= i < |rs| && rs[i] == SkillResponse(id, a)
    ensures AnswerFor(rs, id) == Some(a)
  {
    var i :| 0 <= i < |rs| && rs[i] == SkillResponse(id, a);
    if i > 0 {
      assert rs[0].promptId != id;
      assert rs[1..][i - 1] == rs[i];
      AnswerUnique(rs[1..], id, a);
    }
  }

  /** Answering the same prompt twice with the same text is the same as answering once. */
  lemma UpsertIdempotent(rs: seq<SkillResponse>, id: int, answer: string)
    ensures Upsert(Upsert(rs, id, answer), id, answer) == Upsert(rs, id, answer)
  {
    var r := Upsert(rs, id, answer);
    if !HasPrompt(rs, id) {
      assert r[|rs|].promptId == id;
    }
  }

  /** `canProceed`: whether the current step's Next button is enabled. */
  function CanProceed(w: Wizard): (ok: bool)
    ensures ok ==> 1 <= w.step <= LastStep
    ensures w.step == 1 ==> (ok <==> w.learningGoal != "")
    ensures w.step == 2 ==> (ok <==> w.dailyGoalMinutes > 0)
    ensures w.step == 3 ==> ok
  {
    match w.step
    case 1 => w.learningGoal != ""
    case 2 => w.dailyGoalMinutes > 0
    case 3 => true
    case _ => false
  }

  /** `handleNext`: one step forward, except from the last step. */
  function Next(w: Wizard): (r: Wizard)
    ensures r.step == if w.step < LastStep then w.step + 1 else w.step
    ensures r == w.(step := r.step)
  {
    if w.step < LastStep then w.(step := w.step + 1) else w
  }

  /** `handlePrevious`: one step back, except from the first step. */
  function Previous(w: Wizard): (r: Wizard)
    ensures r.step == if w.step > 1 then w.step - 1 else w.step
    ensures r == w.(step := r.step)
  {
    if w.step > 1 then w.(step := w.step - 1) else w
  }

  /** Back undoes forward and forward undoes back, inside the wizard's range. */
  lemma NextPreviousInverse(w: Wizard)
    requires 1 <= w.step <= LastStep
    ensures w.step < LastStep ==> Previous(Next(w)) == w
    ensures w.step > 1 ==> Next(Previous(w)) == w
  {
  }

  /** What a user can do on the wizard's screen: pick one of the offered goal
      cards (step 1) or time options (step 2), type an answer to one of the
      prompts (step 3), or press a navigation button. An index outside the
      offered list names no button. */
  datatype Action = PickGoal(goalIndex: nat) | PickTime(timeIndex: nat)
                  | Answer(promptIndex: nat, text: string)
                  | NextButton | PreviousButton

  /** One user action. Each step shows only its own cards, options or prompts;
      Next is shown only before the last step and is disabled while
      `canProceed` is false; Previous is shown only after the first step. */
  function Apply(w: Wizard, a: Action): Wizard {
    match a
    case PickGoal(i) => if w.step == 1 && i < |GoalIds| then SelectGoal(w, GoalIds[i]) else w
    case PickTime(i) => if w.step == 2 && i < |TimeOptions| then SelectTime(w, TimeOptions[i]) else w
    case Answer(i, text) =>
      if w.step == 3 && i < |PromptIds| then w.(responses := Upsert(w.responses, PromptIds[i], text)) else w
    case NextButton => if w.step < LastStep && CanProceed(w) then Next(w) else w
    case PreviousButton => if w.step > 1 then Previous(w) else w
  }

  function ApplyAll(w: Wizard, actions: seq<Action>): Wizard
    decreases |actions|
  {
    if actions == [] then w else ApplyAll(Apply(w, actions[0]), actions[1..])
  }

  /** What holds on every screen the wizard can show. */
  predicate Reachable(w: Wizard) {
    && 1 <= w.step <= LastStep
    && (w.step > 1 ==> w.learningGoal in GoalIds)
    && (w.learningGoal == "" || w.learningGoal in GoalIds)
    && w.dailyGoalMinutes in TimeOptions
    && UniqueIds(w.responses)
    && forall i :: 0 <= i < |w.responses| ==> w.responses[i].promptId in PromptIds
  }

  lemma ApplyKeepsReachable(w: Wizard, a: Action)
    requires Reachable(w)
    ensures Reachable(Apply(w, a))
  {
    match a
    case Answer(i, text) =>
      if w.step == 3 && i < |PromptIds| {
        UpsertRecords(w.responses, PromptIds[i], text, PromptIds[i]);
      }
    case _ =>
  }

  /** Every screen reached from the first one by user actions keeps the step in
      1..3, has a chosen goal once past step 1, one of the offered times, and at
      most one answer per prompt. */
  lemma {:induction false} ActionsKeepReachable(w: Wizard, actions: seq<Action>)
    requires Reachable(w)
    ensures Reachable(ApplyAll(w, actions))
    decreases |actions|
  {
    if actions != [] {
      ApplyKeepsReachable(w, actions[0]);
      ActionsKeepReachable(Apply(w, actions[0]), actions[1..]);
    }
  }

  lemma InitialReachable()
    ensures Reachable(Initial())
  {
  }

  /** The document update `handleFinish` sends. */
  datatype Update = Update(onboardingCompleted: bool, preferences: UseAuth.Preferences,
                           skillCheckResponses: seq<SkillResponse>, completedAt: string)

  datatype Finished = Finished(update: Option<Update>, route: Option<UseAuth.Route>)

  /** `handleFinish` (also behind "Skip this step"): nothing without a signed-in
      user; otherwise the update below is sent, and the dashboard opens only if
      it was stored. */
  function Finish(w: Wizard, signedIn: bool, stored: bool, completedAt: string): (f: Finished)
    ensures !signedIn ==> f == Finished(None, None)
    ensures signedIn ==> f.update.Some? && f.update.value.onboardingCompleted
    ensures signedIn ==> f.update.value.preferences == UseAuth.Preferences(w.learningGoal, w.dailyGoalMinutes, true, false)
    ensures signedIn ==> f.update.value.skillCheckResponses == w.responses && f.update.value.completedAt == completedAt
    ensures f.route.Some? <==> signedIn && stored
    ensures f.route.Some? ==> f.route.value == UseAuth.DashboardRoute
  {
    if !signedIn then Finished(None, None)
    else
      var u := Update(true, UseAuth.Preferences(w.learningGoal, w.dailyGoalMinutes, true, false), w.responses, completedAt);
      Finished(Some(u), if stored then Some(UseAuth.DashboardRoute) else None)
  }

  /** The stored user document after the update: the completion flag and the
      preferences are replaced, nothing else of the modelled record changes. */
  function ApplyUpdate(d: UseAuth.UserDoc, u: Update): (r: UseAuth.UserDoc)
    ensures r.onboardingCompleted == u.onboardingCompleted && r.preferences == u.preferences
    ensures r.progress == d.progress && r.uid == d.uid && r.createdAt == d.createdAt
  {
    d.(onboardingCompleted := u.onboardingCompleted, preferences := u.preferences)
  }

  /** Once onboarding is saved, the next password sign-in goes to the dashboard,
      and the stored preferences are the ones chosen in the wizard. */
  lemma FinishedUserSignsInToDashboard(w: Wizard, d: UseAuth.UserDoc, user: UseAuth.AuthUser, completedAt: string, now: string)
    ensures var f := Finish(w, true, true, completedAt);
            var d' := ApplyUpdate(d, f.update.value);
            UseAuth.Login(Success(user), Some(d'.onboardingCompleted), None, None, now).route == Some(UseAuth.DashboardRoute)
            && d'.preferences.learningGoal == w.learningGoal && d'.preferences.dailyGoalMinutes == w.dailyGoalMinutes
  {
  }
}
