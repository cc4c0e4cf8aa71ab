/** Signups to the JWT variant handled one after another from some starting
    store: the store each one leaves is the next one's input. Every email keeps
    the record of the first admissible signup for it, and nothing else enters
    the store. */
module SignupLog {
  import opened Basics
  import opened Hashing
  import opened JwtService

  /** One signup request after body parsing, with the salt its hash draws. */
  datatype Request = Request(email: Option<string>, name: Option<string>, password: Option<string>, salt: Salt)

  /** A request that passes the field check. */
  predicate Admissible(q: Request)
  {
    Truthy(q.email) && Truthy(q.name) && Truthy(q.password)
  }

  /** The record an admissible request would store. */
  function RecordFor(h: Hasher, q: Request): UserInDB
    requires Admissible(q)
  {
    UserInDB(q.name.value, q.email.value, h.hash(q.password.value, q.salt))
  }

  function Apply(h: Hasher, store: Store, q: Request): Store
  {
    ApiSignup(h, store, q.email, q.name, q.password, q.salt).store
  }

  /** The store after handling every request of `log` in order. Records
      already present are never replaced. */
  function Replay(h: Hasher, store: Store, log: seq<Request>): (r: Store)
    ensures store.Keys <= r.Keys
    ensures forall email :: email in store ==> r[email] == store[email]
    decreases |log|
  {
    if |log| == 0 then store else Replay(h, Apply(h, store, log[0]), log[1..])
  }

  /** The emails of the admissible requests in `log`. */
  ghost function AdmissibleEmails(log: seq<Request>): set<string>
  {
    set i | 0 <= i < |log| && Admissible(log[i]) :: log[i].email.value
  }

  /** `i` is the first admissible request for `email`. */
  ghost predicate FirstFor(log: seq<Request>, email: string, i: int)
  {
    && 0 <= i < |log|
    && Admissible(log[i])
    && log[i].email.value == email
    && forall j :: 0 <= j < i && Admissible(log[j]) ==> log[j].email.value != email
  }

  lemma AdmissibleEmailsSplit(log: seq<Request>)
    requires |log| > 0
    ensures AdmissibleEmails(log) ==
      (if Admissible(log[0]) then {log[0].email.value} else {}) + AdmissibleEmails(log[1..])
  {
    var rest := log[1..];
    forall e | e in AdmissibleEmails(log)
      ensures e in (if Admissible(log[0]) then {log[0].email.value} else {}) + AdmissibleEmails(rest)
    {
      var i :| 0 <= i < |log| && Admissible(log[i]) && log[i].email.value == e;
      if i > 0 {
        assert rest[i - 1] == log[i];
      }
    }
    forall e | e in AdmissibleEmails(rest)
      ensures e in AdmissibleEmails(log)
    {
      var i :| 0 <= i < |rest| && Admissible(rest[i]) && rest[i].email.value == e;
      assert log[i + 1] == rest[i];
    }
  }

  /** The replayed store holds exactly the starting keys and the emails of
      the admissible requests. */
  lemma {:induction false} ReplayKeys(h: Hasher, store: Store, log: seq<Request>)
    ensures Replay(h, store, log).Keys == store.Keys + AdmissibleEmails(log)
    decreases |log|
  {
    if |log| > 0 {
      AdmissibleEmailsSplit(log);
      ReplayKeys(h, Apply(h, store, log[0]), log[1..]);
    }
  }

  /** An email new to the starting store ends up with the record of its
      first admissible request; later requests for it change nothing. */
  lemma {:induction false} ReplayFirstWins(h: Hasher, store: Store, log: seq<Request>, email: string, i: int)
    requires email !in store
    requires FirstFor(log, email, i)
    ensures email in Replay(h, store, log)
    ensures Replay(h, store, log)[email] == RecordFor(h, log[i])
    decreases |log|
  {
    var next := Apply(h, store, log[0]);
    if i == 0 {
      assert next[email] == RecordFor(h, log[0]);
    } else {
      assert email !in next;
      var rest := log[1..];
      assert rest[i - 1] == log[i];
      forall j | 0 <= j < i - 1 && Admissible(rest[j])
        ensures rest[j].email.value != email
      {
        assert rest[j] == log[j + 1];
      }
      ReplayFirstWins(h, next, rest, email, i - 1);
    }
  }

  /** Replaying signups keeps the store well formed. */
  lemma {:induction false} ReplayPreservesWellFormed(h: Hasher, store: Store, log: seq<Request>)
    requires WellFormed(store)
    ensures WellFormed(Replay(h, store, log))
    decreases |log|
  {
    if |log| > 0 {
      var q := log[0];
      SignupPreservesWellFormed(h, store, q.email, q.name, q.password, q.salt);
      ReplayPreservesWellFormed(h, Apply(h, store, q), log[1..]);
    }
  }

  /** Two admissible signups with different emails, one after the other on
      an empty store, both end up in it. */
  lemma TwoSignupsBothKept(h: Hasher, a: Request, b: Request)
    requires Admissible(a) && Admissible(b) && a.email != b.email
    ensures
      var s := Replay(h, map[], [a, b]);
      && s.Keys == {a.email.value, b.email.value}
      && s[a.email.value] == RecordFor(h, a)
      && s[b.email.value] == RecordFor(h, b)
  {
    var log := [a, b];
    ReplayKeys(h, map[], log);
    assert AdmissibleEmails(log) == {a.email.value, b.email.value} by {
      AdmissibleEmailsSplit(log);
      AdmissibleEmailsSplit(log[1..]);
    }
    ReplayFirstWins(h, map[], log, a.email.value, 0);
    ReplayFirstWins(h, map[], log, b.email.value, 1);
  }
}
