/** When the errors of a hub's watches are taken for rejected credentials (internal/kube/informer.go): a first
    unauthorised answer, or a second forbidden one on the same watch. */
module WatchErrors {
  import opened Watches

  datatype Answer = Unauthorised | ForbiddenAnswer | OtherAnswer

  datatype Failed = Failed(key: WatchKey, answer: Answer)

  /** The forbidden answers counted for each watch, and how often the failure was reported. */
  datatype State = State(attempts: map<WatchKey, nat>, reports: nat)

  const INITIAL := State(map[], 0)

  function Count(attempts: map<WatchKey, nat>, key: WatchKey): nat {
    if key in attempts then attempts[key] else 0
  }

  /** The report goes out through a sync.Once. */
  function Reported(s: State): State {
    s.(reports := if s.reports == 0 then 1 else s.reports)
  }

  function Handled(s: State, e: Failed): State {
    match e.answer
    case Unauthorised => Reported(s)
    case OtherAnswer => s
    case ForbiddenAnswer =>
      var counted := s.(attempts := s.attempts[e.key := Count(s.attempts, e.key) + 1]);
      if Count(counted.attempts, e.key) >= 2 then Reported(counted) else counted
  }

  function HandledAll(errors: seq<Failed>): State
    decreases |errors|
  {
    if errors == [] then INITIAL else Handled(HandledAll(errors[..|errors| - 1]), errors[|errors| - 1])
  }

  ghost predicate Rejected(errors: seq<Failed>) {
    || (exists i :: 0 <= i < |errors| && errors[i].answer.Unauthorised?)
    || (exists i, j :: 0 <= i < j < |errors| && errors[i].answer.ForbiddenAnswer? && errors[j].answer.ForbiddenAnswer? &&
         errors[i].key == errors[j].key)
  }

  ghost predicate WasForbidden(errors: seq<Failed>, key: WatchKey) {
    exists i :: 0 <= i < |errors| && errors[i] == Failed(key, ForbiddenAnswer)
  }

  /** The failure is reported at most once, and is exactly when some watch was answered unauthorised, or the same
      watch was answered forbidden twice. */
  lemma {:induction false} ReportedOnceWhenRejected(errors: seq<Failed>)
    ensures HandledAll(errors).reports == (if Rejected(errors) then 1 else 0)
    ensures forall key :: WasForbidden(errors, key) <==> Count(HandledAll(errors).attempts, key) > 0
    decreases |errors|
  {
    if errors != [] {
      var init, last := errors[..|errors| - 1], errors[|errors| - 1];
      ReportedOnceWhenRejected(init);
      assert errors == init + [last];
      OneMore(init, last);
      forall key ensures WasForbidden(errors, key) <==> WasForbidden(init, key) || last == Failed(key, ForbiddenAnswer) {
        if WasForbidden(init, key) {
          var i :| 0 <= i < |init| && init[i] == Failed(key, ForbiddenAnswer);
          assert errors[i] == init[i];
        }
        assert errors[|init|] == last;
      }
    }
  }

  lemma OneMore(init: seq<Failed>, last: Failed)
    ensures Rejected(init + [last]) <==>
      Rejected(init) || last.answer.Unauthorised? || (last.answer.ForbiddenAnswer? && WasForbidden(init, last.key))
  {
    var all, n := init + [last], |init|;
    assert all[n] == last && forall i :: 0 <= i < n ==> all[i] == init[i];
    if last.answer.ForbiddenAnswer? && WasForbidden(init, last.key) {
      var i :| 0 <= i < n && init[i] == Failed(last.key, ForbiddenAnswer);
      assert all[i].answer.ForbiddenAnswer? && all[n].answer.ForbiddenAnswer? && all[i].key == all[n].key;
    }
    if Rejected(all) && !Rejected(init) && !last.answer.Unauthorised? {
      var i, j :| 0 <= i < j < |all| && all[i].answer.ForbiddenAnswer? && all[j].answer.ForbiddenAnswer? && all[i].key == all[j].key;
      assert j == n && init[i] == Failed(last.key, ForbiddenAnswer);
    }
  }

  class Handler {
    var attempts: map<WatchKey, nat>
    var reports: nat

    ghost function Contents(): State
      reads this
    {
      State(attempts, reports)
    }

    constructor ()
      ensures Contents() == INITIAL
    {
      attempts, reports := map[], 0;
    }

    method Report()
      modifies this
      ensures Contents() == Reported(old(Contents()))
    {
      if reports == 0 { reports := 1; }
    }

    method Handle(key: WatchKey, answer: Answer)
      modifies this
      ensures Contents() == Handled(old(Contents()), Failed(key, answer))
    {
      if answer.Unauthorised? {
        Report();
        return;
      }
      if !answer.ForbiddenAnswer? { return; }
      attempts := attempts[key := Count(attempts, key) + 1];
      if attempts[key] >= 2 { Report(); }
    }
  }
}
