/** The dashboard's copy of the learner's progress: loaded from the user
    document, and bumped locally when a practice session reports back. */
module Dashboard {
  import opened Common
  import UseAuth
  import PracticeSession

  /** The three counters the dashboard keeps; a field absent from the stored
      record is `None`. */
  datatype Counters = Counters(currentStreak: Option<int>, totalSessions: Option<int>, totalMinutes: Option<int>)

  /** `progress` is `None` until a user document has been read. */
  datatype Dashboard = Dashboard(showPractice: bool, progress: Option<Counters>)

  const Initial: Dashboard := Dashboard(false, None)

  /** The record shown when the user document has no progress at all. */
  const ZeroCounters: Counters := Counters(Some(0), Some(0), Some(0))

  /** The dashboard's view of a stored progress record. */
  function FromStored(p: UseAuth.Progress): (c: Counters)
    ensures c.currentStreak == Some(p.currentStreak)
    ensures c.totalSessions == Some(p.totalSessions)
    ensures c.totalMinutes == Some(p.totalMinutes)
  {
    Counters(Some(p.currentStreak), Some(p.totalSessions), Some(p.totalMinutes))
  }

  /** Loading the user document: `stored` is `None` when the document is
      missing or the read fails (nothing changes), `Some(None)` when it has no
      progress record (zeros are shown), `Some(Some(c))` otherwise. */
  function LoadProgress(d: Dashboard, stored: Option<Option<Counters>>): (r: Dashboard)
    ensures stored.None? ==> r == d
    ensures stored == Some(None) ==> r.progress == Some(ZeroCounters)
    ensures stored.Some? && stored.value.Some? ==> r.progress == stored.value
    ensures r.showPractice == d.showPractice
  {
    match stored
    case None => d
    case Some(p) => d.(progress := Some(p.GetOr(ZeroCounters)))
  }

  /** The "Start Practice Session" button. */
  function OpenPractice(d: Dashboard): (r: Dashboard)
    ensures r.showPractice && r.progress == d.progress
  {
    d.(showPractice := true)
  }

  /** A counter read the way `(prev?.x || 0)` reads it. */
  function Count(c: Option<Counters>, pick: Counters -> Option<int>): int {
    if c.None? then 0 else pick(c.value).GetOr(0)
  }

  /** `handlePracticeComplete`: closes the session and shows the streak and the
      session count one higher and the minutes raised by the session's
      duration, reading a missing counter (or a missing record) as zero. */
  function PracticeComplete(d: Dashboard, summary: PracticeSession.Summary): (r: Dashboard)
    ensures !r.showPractice && r.progress.Some?
    ensures d.progress.None? ==> r.progress == Some(Counters(Some(1), Some(1), Some(summary.duration)))
    ensures d.progress.Some? ==> var p := d.progress.value;
              && r.progress.value.currentStreak == Some(p.currentStreak.GetOr(0) + 1)
              && r.progress.value.totalSessions == Some(p.totalSessions.GetOr(0) + 1)
              && r.progress.value.totalMinutes == Some(p.totalMinutes.GetOr(0) + summary.duration)
  {
    var p := d.progress;
    Dashboard(false, Some(Counters(
      Some(Count(p, (c: Counters) => c.currentStreak) + 1),
      Some(Count(p, (c: Counters) => c.totalSessions) + 1),
      Some(Count(p, (c: Counters) => c.totalMinutes) + summary.duration))))
  }

  /** The increments the session writes, applied to a stored progress record. */
  function ApplyIncrement(p: UseAuth.Progress, inc: PracticeSession.Increment): (q: UseAuth.Progress)
    ensures q.totalMinutes - p.totalMinutes == inc.totalMinutes
    ensures q.totalSessions - p.totalSessions == inc.totalSessions
    ensures q.currentStreak - p.currentStreak == inc.currentStreak
    ensures q.longestStreak == p.longestStreak && q.masteredPhrases == p.masteredPhrases
  {
    p.(totalMinutes := p.totalMinutes + inc.totalMinutes,
       totalSessions := p.totalSessions + inc.totalSessions,
       currentStreak := p.currentStreak + inc.currentStreak)
  }

  /** Outside demo mode, when the store write succeeds, the dashboard's local
      bump agrees with what the session wrote: after a session ends, the
      counters shown are those of the stored record with the session's
      increments applied. */
  lemma LocalBumpMatchesStore(p: UseAuth.Progress, s: PracticeSession.Session, now: int, showing: bool)
    ensures var e := PracticeSession.EndSession(s, now, false);
            var d := Dashboard(showing, Some(FromStored(p)));
            PracticeComplete(d, e.summary).progress == Some(FromStored(ApplyIncrement(p, e.write.value)))
  {
  }

  /** The session's store write can fail: the session logs the error and still
      reports completion, so the store keeps the old record while the dashboard
      shows one more session than it holds. */
  lemma FailedWriteStillBumps(p: UseAuth.Progress, s: PracticeSession.Session, now: int, showing: bool)
    ensures var e := PracticeSession.EndSession(s, now, false);
            var d := PracticeComplete(Dashboard(showing, Some(FromStored(p))), e.summary);
            && e.write.Some?
            && d.progress.value.totalSessions == Some(p.totalSessions + 1)
            && d.progress != Some(FromStored(p))
  {
  }

  /** A brand-new account's dashboard, after its first non-demo session, shows
      a streak and session count of one and the session's minutes. */
  lemma FirstSessionFromNewAccount(uid: string, email: string, name: string, photo: Option<string>,
                                   createdAt: string, lastLoginAt: string, s: PracticeSession.Session, now: int)
    ensures var doc := UseAuth.NewUserDoc(uid, email, name, photo, createdAt, lastLoginAt);
            var d := LoadProgress(Initial, Some(Some(FromStored(doc.progress))));
            var e := PracticeSession.EndSession(s, now, false);
            PracticeComplete(OpenPractice(d), e.summary).progress
              == Some(Counters(Some(1), Some(1), Some(e.summary.duration)))
  {
  }
}
