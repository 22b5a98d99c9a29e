/** The unlock flag: a single boolean, initially false, set by the
    (always successful) unlock and cleared by logging out. */
module Auth {

  datatype AuthState = AuthState(authenticated: bool)

  const Initial: AuthState := AuthState(false)

  /** `isBiometricAvailable`: no biometric check is wired up. */
  function IsBiometricAvailable(s: AuthState): (r: bool)
    ensures !r
  {
    false
  }

  /** `authenticateWithBiometric`: always unlocks and answers true. */
  function Authenticate(s: AuthState): (r: (AuthState, bool))
    ensures r.1 && CheckAuthentication(r.0)
  {
    (AuthState(true), true)
  }

  /** `logout`. */
  function Logout(s: AuthState): (r: AuthState)
    ensures !CheckAuthentication(r)
  {
    AuthState(false)
  }

  /** `checkAuthentication`: the flag as it stands. */
  function CheckAuthentication(s: AuthState): bool {
    s.authenticated
  }

  /** The calls a session can make, in order. */
  datatype Call = Unlock | LogOut | Check | AskBiometric

  /** The state after a sequence of calls from `s`. */
  function Run(s: AuthState, calls: seq<Call>): AuthState
    decreases |calls|
  {
    if |calls| == 0 then s
    else
      var s' := Run(s, calls[..|calls| - 1]);
      match calls[|calls| - 1]
      case Unlock => Authenticate(s').0
      case LogOut => Logout(s')
      case Check => s'
      case AskBiometric => s'
  }

  /** The session is unlocked after `calls` exactly when some unlock is not
      followed by a logout (or, with no unlock or logout at all, when it
      started unlocked). */
  ghost predicate UnlockedAfter(s: AuthState, calls: seq<Call>) {
    || (exists i :: 0 <= i < |calls| && calls[i] == Unlock
                    && forall j :: i < j < |calls| ==> calls[j] != LogOut)
    || (s.authenticated && forall j :: 0 <= j < |calls| ==> calls[j] != Unlock && calls[j] != LogOut)
  }

  lemma {:induction false} RunMatchesLastCall(s: AuthState, calls: seq<Call>)
    ensures CheckAuthentication(Run(s, calls)) <==> UnlockedAfter(s, calls)
    decreases |calls|
  {
    if |calls| > 0 {
      var front, c := calls[..|calls| - 1], calls[|calls| - 1];
      RunMatchesLastCall(s, front);
      match c
      case Unlock =>
        assert calls[|calls| - 1] == Unlock;
      case LogOut =>
        forall i | 0 <= i < |calls| && calls[i] == Unlock
          ensures exists j :: i < j < |calls| && calls[j] == LogOut
        {
          assert i < |calls| - 1 && calls[|calls| - 1] == LogOut;
        }
        assert calls[|calls| - 1] == LogOut;
      case Check =>
        UnlockedAfterNeutral(s, front, c);
      case AskBiometric =>
        UnlockedAfterNeutral(s, front, c);
    }
  }

  /** A call that neither unlocks nor logs out changes nothing. */
  lemma UnlockedAfterNeutral(s: AuthState, front: seq<Call>, c: Call)
    requires c != Unlock && c != LogOut
    ensures UnlockedAfter(s, front + [c]) <==> UnlockedAfter(s, front)
  {
    var calls := front + [c];
    assert forall j :: 0 <= j < |front| ==> calls[j] == front[j];
    assert calls[|front|] == c;
  }

  /** From a fresh start, a session is unlocked exactly when it has unlocked
      and not logged out since. */
  lemma FreshSession(calls: seq<Call>)
    ensures CheckAuthentication(Run(Initial, calls)) <==>
              exists i :: 0 <= i < |calls| && calls[i] == Unlock
                          && forall j :: i < j < |calls| ==> calls[j] != LogOut
  {
    RunMatchesLastCall(Initial, calls);
  }
}
