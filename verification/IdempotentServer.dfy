/** The server side of retry-safe requests: a key is acquired, the mutation runs
    and its result is stored, all in one transaction, so a known key is answered
    from the log (httpadapter, idempotency). Keys are numbers: a supply of fresh
    values stands for random UUIDs. */
module IdempotentServer {
  import opened JsCollections

  datatype Logged<B> = Logged(key: nat, body: B)

  /** What the request would meet: a failed login, a mutation that returns an
      error and is rolled back, or a mutation that succeeds. */
  datatype Verdict = Unauthorized | Refuse(code: string) | Admit

  datatype Reply<B> = Recorded(body: B) | Rejected(code: string)

  datatype Outcome<B> = Outcome(log: seq<Logged<B>>, reply: Reply<B>)

  datatype Request<B> = Request(key: nat, body: B, verdict: Verdict)

  function Find<B>(log: seq<Logged<B>>, key: nat): (r: Option<B>)
    ensures r.Some? ==> Logged(key, r.value) in log
    ensures r.None? ==> forall e :: e in log ==> e.key != key
  {
    if log == [] then None
    else if log[|log| - 1].key == key then Some(log[|log| - 1].body)
    else Find(log[..|log| - 1], key)
  }

  function Handle<B(==)>(log: seq<Logged<B>>, key: nat, body: B, verdict: Verdict): Outcome<B> {
    if verdict.Unauthorized? then Outcome(log, Rejected("unauthorized"))
    else
      var known := Find(log, key);
      if known.Some? then Outcome(log, if known.value == body then Recorded(body) else Rejected("idempotency_key_reuse"))
      else match verdict
        case Refuse(code) => Outcome(log, Rejected(code))
        case _ => Outcome(log + [Logged(key, body)], Recorded(body))
  }

  /** What becomes of one request: a failed login is told and nothing is stored. A
      known key gets its stored answer back for the same body and is turned down for
      any other. A new key is recorded if the mutation succeeds, and only then. */
  lemma HandleExactly<B>(log: seq<Logged<B>>, key: nat, body: B, b: B, code: string)
    requires KeysDistinct(log)
    ensures Handle(log, key, body, Unauthorized) == Outcome(log, Rejected("unauthorized"))
    ensures Logged(key, body) in log ==>
      Handle(log, key, body, Admit) == Handle(log, key, body, Refuse(code)) == Outcome(log, Recorded(body))
    ensures Logged(key, b) in log && b != body ==>
      Handle(log, key, body, Admit) == Handle(log, key, body, Refuse(code)) == Outcome(log, Rejected("idempotency_key_reuse"))
    ensures (forall e :: e in log ==> e.key != key) ==>
      && Handle(log, key, body, Admit) == Outcome(log + [Logged(key, body)], Recorded(body))
      && Handle(log, key, body, Refuse(code)) == Outcome(log, Rejected(code))
  {
    var known := Find(log, key);
    if known.Some? && Logged(key, b) in log {
      var i :| 0 <= i < |log| && log[i] == Logged(key, b);
      var j :| 0 <= j < |log| && log[j] == Logged(key, known.value);
      assert i == j;
    }
    if known.Some? && Logged(key, body) in log {
      var i :| 0 <= i < |log| && log[i] == Logged(key, body);
      var j :| 0 <= j < |log| && log[j] == Logged(key, known.value);
      assert i == j;
    }
  }

  function Serve<B(==)>(log: seq<Logged<B>>, requests: seq<Request<B>>): seq<Logged<B>> {
    if requests == [] then log
    else
      var r := requests[|requests| - 1];
      Handle(Serve(log, requests[..|requests| - 1]), r.key, r.body, r.verdict).log
  }

  /** A request whose mutation succeeds leaves its key in the log, whatever comes
      before and after. */
  lemma {:induction false} AdmittedIsRecorded<B>(log: seq<Logged<B>>, requests: seq<Request<B>>, i: nat)
    requires i < |requests| && requests[i].verdict.Admit?
    ensures Find(Serve(log, requests), requests[i].key).Some?
  {
    var n := |requests| - 1;
    if i < n {
      AdmittedIsRecorded(log, requests[..n], i);
      var before := Serve(log, requests[..n]);
      var e :| e in before && e.key == requests[i].key;
      assert e in Serve(log, requests);
    }
  }

  ghost predicate KeysDistinct<B>(log: seq<Logged<B>>) {
    forall i, j :: 0 <= i < j < |log| ==> log[i].key != log[j].key
  }

  lemma HandleKeepsDistinct<B>(log: seq<Logged<B>>, key: nat, body: B, verdict: Verdict)
    requires KeysDistinct(log)
    ensures KeysDistinct(Handle(log, key, body, verdict).log)
  {
    var log' := Handle(log, key, body, verdict).log;
    if log' != log {
      forall i | 0 <= i < |log| ensures log[i].key != key {
        assert log[i] in log;
      }
    }
  }

  lemma FindIsStable<B>(log: seq<Logged<B>>, key: nat, body: B, verdict: Verdict, k: nat)
    requires Find(log, k).Some?
    ensures Find(Handle(log, key, body, verdict).log, k) == Find(log, k)
  {
    var log' := Handle(log, key, body, verdict).log;
    if log' != log {
      assert log'[..|log'| - 1] == log;
    }
  }

  /** Whatever requests arrive, each key records at most once. */
  lemma {:induction false} EachKeyRecordsOnce<B>(log: seq<Logged<B>>, requests: seq<Request<B>>)
    requires KeysDistinct(log)
    ensures KeysDistinct(Serve(log, requests))
  {
    if requests != [] {
      var init, r := requests[..|requests| - 1], requests[|requests| - 1];
      EachKeyRecordsOnce(log, init);
      HandleKeepsDistinct(Serve(log, init), r.key, r.body, r.verdict);
    }
  }

  lemma {:induction false} RecordStays<B>(log: seq<Logged<B>>, requests: seq<Request<B>>, key: nat)
    requires Find(log, key).Some?
    ensures Find(Serve(log, requests), key) == Find(log, key)
  {
    if requests != [] {
      var init, r := requests[..|requests| - 1], requests[|requests| - 1];
      RecordStays(log, init, key);
      FindIsStable(Serve(log, init), r.key, r.body, r.verdict, key);
    }
  }

  /** Once a request was recorded, sending it again at any later time gets the
      same answer and records nothing. */
  lemma ReplayIsSafe<B>(log: seq<Logged<B>>, key: nat, body: B, requests: seq<Request<B>>, verdict: Verdict)
    requires Handle(log, key, body, Admit).reply == Recorded(body) && !verdict.Unauthorized?
    ensures var later := Serve(Handle(log, key, body, Admit).log, requests);
      Handle(later, key, body, verdict) == Outcome(later, Recorded(body))
  {
    RecordStays(Handle(log, key, body, Admit).log, requests, key);
  }
}
