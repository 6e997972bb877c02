/** The study planner of `number5.py`: `add_session` appends a validated
    session description to the caller's list in place and hands the same list
    back. */
module StudySchedule {
  import opened Wrappers

  /** The Python list that `add_session` mutates. */
  class StudyList {
    var sessions: seq<string>

    constructor ()
      ensures sessions == []
    {
      sessions := [];
    }
  }

  const EmptySessionError := "Session detail must be a non-empty string"

  /** `add_session(schedule, session_detail)`: an empty description is
      rejected and the schedule is left alone; otherwise the description is
      appended and the very same list object is returned. */
  method AddSession(schedule: StudyList, sessionDetail: string) returns (r: Result<StudyList, string>)
    modifies schedule
    ensures sessionDetail == "" ==> r == Failure(EmptySessionError) && schedule.sessions == old(schedule.sessions)
    ensures sessionDetail != "" ==> r == Success(schedule) && schedule.sessions == old(schedule.sessions) + [sessionDetail]
  {
    if sessionDetail == "" {
      return Failure(EmptySessionError);
    }
    schedule.sessions := schedule.sessions + [sessionDetail];
    return Success(schedule);
  }

  /** The demonstration loop `for session in sessions: add_session(schedule,
      session)`: the first rejected description raises and stops the loop, so
      exactly the descriptions before it have been appended, in order. */
  method AddSessions(schedule: StudyList, details: seq<string>) returns (r: Result<StudyList, string>)
    modifies schedule
    ensures (forall i :: 0 <= i < |details| ==> details[i] != "") ==>
              r == Success(schedule) && schedule.sessions == old(schedule.sessions) + details
    ensures forall k :: 0 <= k < |details| && details[k] == "" && (forall i :: 0 <= i < k ==> details[i] != "") ==>
              r == Failure(EmptySessionError) && schedule.sessions == old(schedule.sessions) + details[..k]
  {
    var n := 0;
    while n < |details|
      invariant 0 <= n <= |details|
      invariant forall i :: 0 <= i < n ==> details[i] != ""
      invariant schedule.sessions == old(schedule.sessions) + details[..n]
    {
      var step := AddSession(schedule, details[n]);
      if step.Failure? {
        return step;
      }
      n := n + 1;
    }
    assert details[..n] == details;
    return Success(schedule);
  }

  /** Adding the same description twice keeps both copies. */
  method DuplicateSessionsKept() returns (sessions: seq<string>)
    ensures sessions == ["Python Programming", "Python Programming", "Data Structures"]
  {
    var schedule := new StudyList();
    var _ := AddSession(schedule, "Python Programming");
    var _ := AddSession(schedule, "Python Programming");
    var _ := AddSession(schedule, "Data Structures");
    sessions := schedule.sessions;
  }

  /** Five adds to an empty list yield exactly those five sessions, in order. */
  method BasicDemonstration() returns (sessions: seq<string>)
    ensures sessions == [
      "Mathematics - Chapter 5: Calculus",
      "Physics - Quantum Mechanics Review",
      "Computer Science - Python Programming Practice",
      "History - World War II Analysis",
      "Chemistry - Organic Compounds Study"
    ]
  {
    var schedule := new StudyList();
    var toAdd := [
      "Mathematics - Chapter 5: Calculus",
      "Physics - Quantum Mechanics Review",
      "Computer Science - Python Programming Practice",
      "History - World War II Analysis",
      "Chemistry - Organic Compounds Study"
    ];
    var _ := AddSessions(schedule, toAdd);
    sessions := schedule.sessions;
  }
}
