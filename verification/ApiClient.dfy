/** Attaching idempotency keys to API calls (api/client). */
module ApiClient {
  import opened JsCollections
  import opened IdempotentServer

  function UpperChar(c: char): char {
    if 'a' <= c <= 'z' then (c as int - 32) as char else c
  }

  function Upper(s: string): string {
    if s == "" then "" else [UpperChar(s[0])] + Upper(s[1..])
  }

  /** Reads, logins, status checks and slot searches carry no key. */
  predicate IsIdempotencyExempt(method_: string, path: string) {
    || method_ == "GET"
    || path == "/api/v1/login" || path == "/api/v1/logout"
    || path == "/api/v1/absences/batch-status"
    || "/api/v1/scheduling/preflight" <= path
    || path == "/api/v1/scheduling/find-slots"
  }

  /** The method and key a call goes out with. `given` is the caller's key, if
      it passed one that is not blank; `newKey` is the next unused one. */
  method ApiJson(method_: Option<string>, path: string, given: Option<nat>, newKey: nat)
    returns (sent: string, key: Option<nat>)
    ensures sent == if method_.Some? then Upper(method_.value) else "GET"
    ensures key == KeyOf(sent, path, given, newKey)
  {
    sent := if method_.Some? then Upper(method_.value) else "GET";
    key := given;
    if !IsIdempotencyExempt(sent, path) {
      if key.None? {
        key := Some(newKey);
      }
    }
  }

  function KeyOf(method_: string, path: string, given: Option<nat>, newKey: nat): Option<nat> {
    if given.None? && !IsIdempotencyExempt(method_, path) then Some(newKey) else given
  }

  /** A call goes out without a key exactly when its caller gave none and it is a
      read, a login, a logout, the batch status check or a slot search. */
  lemma KeylessExactly(method_: string, path: string, given: Option<nat>, newKey: nat)
    ensures KeyOf(method_, path, given, newKey) == None <==>
      && given == None
      && (|| method_ == "GET"
          || path in {"/api/v1/login", "/api/v1/logout", "/api/v1/absences/batch-status", "/api/v1/scheduling/find-slots"}
          || (|path| >= 28 && path[..28] == "/api/v1/scheduling/preflight"))
    ensures given.Some? ==> KeyOf(method_, path, given, newKey) == given
    ensures given.None? ==> KeyOf(method_, path, given, newKey) in {None, Some(newKey)}
  {}

  /** A method is a read exactly when it spells GET in whatever case. */
  lemma ReadsExactly(method_: string)
    ensures Upper(method_) == "GET" <==>
      |method_| == 3 && method_[0] in {'g', 'G'} && method_[1] in {'e', 'E'} && method_[2] in {'t', 'T'}
  {
    UpperIsByChar(method_);
    if |method_| == 3 {
      UpperOf(method_[0], 'G', 'g');
      UpperOf(method_[1], 'E', 'e');
      UpperOf(method_[2], 'T', 't');
    }
  }

  lemma UpperOf(c: char, capital: char, small: char)
    requires 'A' <= capital <= 'Z' && small as int == capital as int + 32
    ensures UpperChar(c) == capital <==> c in {capital, small}
  {}

  /** Submitting absences, creating sessions and applying a schedule carry a key. */
  lemma MutationsCarryKeys(path: string, newKey: nat)
    requires path in {"/api/v1/absences/batch", "/api/v1/sessions", "/api/v1/scheduling/apply"}
    ensures KeyOf("POST", path, None, newKey) == Some(newKey)
  {
    assert |path| < 28 && |path| !in {13, 14};
  }

  lemma {:induction false} UpperIsByChar(s: string)
    ensures |Upper(s)| == |s| && forall i :: 0 <= i < |s| ==> Upper(s)[i] == UpperChar(s[i])
  {
    if s != "" { UpperIsByChar(s[1..]); }
  }

  /** A mutation that the caller gave a key is recorded once however often it is
      sent again, whatever other requests the server handles in between. */
  lemma GivenKeyRecordsOnce<B>(
      log: seq<Logged<B>>, method_: string, path: string, given: nat, body: B, newKeys: (nat, nat),
      between: seq<Request<B>>, verdict: Verdict)
    requires Handle(log, given, body, Admit).reply == Recorded(body) && !verdict.Unauthorized?
    ensures var first, second := KeyOf(method_, path, Some(given), newKeys.0), KeyOf(method_, path, Some(given), newKeys.1);
      first == second == Some(given)
      && var later := Serve(Handle(log, given, body, Admit).log, between);
         Handle(later, given, body, verdict) == Outcome(later, Recorded(body))
  {
    ReplayIsSafe(log, given, body, between, verdict);
  }

  /** Left to itself the client makes a new key per call, so sending the same
      mutation again after a lost answer records it a second time. */
  lemma NewKeyRecordsTwice<B>(log: seq<Logged<B>>, method_: string, path: string, body: B, a: nat, b: nat)
    requires !IsIdempotencyExempt(method_, path) && a != b
    requires Find(log, a).None? && Find(log, b).None?
    ensures KeyOf(method_, path, None, a) == Some(a) && KeyOf(method_, path, None, b) == Some(b)
    ensures var once := Handle(log, a, body, Admit).log;
      Handle(once, b, body, Admit) == Outcome(log + [Logged(a, body), Logged(b, body)], Recorded(body))
  {
    var once := log + [Logged(a, body)];
    assert once[..|once| - 1] == log;
    assert once + [Logged(b, body)] == log + [Logged(a, body), Logged(b, body)];
  }
}
