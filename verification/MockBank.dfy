/** The stand-in bank: it de-duplicates transfer requests by idempotency key, files them under truncated apply numbers,
    and moves a transfer on every time its status is asked. */
module MockBank {
  import opened Basics
  import opened TransferDomain
  import opened Outbox
  import opened TransferTables
  import opened ProtocolSafety
  import opened Handlers
  import opened Polling
  import Events

  const PREFIX := 14  // characters of the key that fit into an apply number

  datatype Stored = Stored(applyNo: string, key: string, amount: int, status: string, pollCount: nat)

  datatype Ledger = Ledger(transfers: map<string, Stored>, keyIndex: map<string, string>)

  datatype Request = TransferRequest(key: string, amount: int) | StatusRequest(applyNo: string)

  function ApplyNo(key: string): string {
    var no := "AP" + key;
    if |no| > 16 then no[..16] else no
  }

  function StatusAt(polls: nat): string {
    if polls <= 1 then "AcceptedToBank" else if polls == 2 then "Approved" else "Settled"
  }

  function After(l: Ledger, r: Request): Ledger {
    match r
    case TransferRequest(key, amount) =>
      if key == "" || key in l.keyIndex then l
      else Ledger(l.transfers[ApplyNo(key) := Stored(ApplyNo(key), key, amount, "AcceptedToBank", 0)],
                  l.keyIndex[key := ApplyNo(key)])
    case StatusRequest(no) =>
      if no !in l.transfers then l
      else
        var st := l.transfers[no];
        l.(transfers := l.transfers[no := st.(pollCount := st.pollCount + 1, status := StatusAt(st.pollCount + 1))])
  }

  function AfterAll(rs: seq<Request>): Ledger {
    if rs == [] then Ledger(map[], map[]) else After(AfterAll(rs[..|rs| - 1]), rs[|rs| - 1])
  }

  /** The amount of the first request that named the key. */
  function FirstAmount(rs: seq<Request>, key: string): Option<int> {
    if rs == [] then None
    else
      var earlier := FirstAmount(rs[..|rs| - 1], key);
      var r := rs[|rs| - 1];
      if earlier.None? && r.TransferRequest? && r.key == key then Some(r.amount) else earlier
  }

  class Server {
    var transfers: map<string, Stored>
    var keyIndex: map<string, string>

    ghost function Abs(): Ledger
      reads this
    {
      Ledger(transfers, keyIndex)
    }

    ghost predicate Valid()
      reads this
    {
      LedgerOk(Abs())
    }

    constructor ()
      ensures Valid() && Abs() == AfterAll([])
    {
      transfers, keyIndex := map[], map[];
    }

    /** Ok carries the apply number and the status shown; the error is an HTTP status code. */
    method HandleTransfer(idem: string, amount: int) returns (r: Result<(string, string), int>)
      requires Valid()
      modifies this
      ensures Valid() && Abs() == After(old(Abs()), TransferRequest(idem, amount))
      ensures if idem == "" then r == Err(400)
              else r.Ok? && r.value.0 == ApplyNo(idem) && ApplyNo(idem) in transfers
                   && r.value.1 == transfers[ApplyNo(idem)].status
      ensures idem == "" || idem in old(keyIndex) ==> transfers == old(transfers) && keyIndex == old(keyIndex)
      ensures idem != "" && idem !in old(keyIndex) ==>
                var number := "AP" + if |idem| >= 14 then idem[..14] else idem;
                && transfers == old(transfers)[number := Stored(number, idem, amount, "AcceptedToBank", 0)]
                && keyIndex == old(keyIndex)[idem := number] && r == Ok((number, "AcceptedToBank"))
    {
      CutNumber(idem);
      if idem == "" {
        return Err(400);
      }
      if idem in keyIndex {
        var st := transfers[keyIndex[idem]];
        return Ok((st.applyNo, st.status));
      }
      var applyNo := "AP" + idem;
      if |applyNo| > 16 {
        applyNo := applyNo[..16];
      }
      var st := Stored(applyNo, idem, amount, "AcceptedToBank", 0);
      transfers := transfers[applyNo := st];
      keyIndex := keyIndex[idem := applyNo];
      return Ok((st.applyNo, st.status));
    }

    method HandleTransferStatus(applyNo: string) returns (r: Result<string, int>)
      requires Valid()
      modifies this`transfers
      ensures Valid() && Abs() == if applyNo == "" then old(Abs()) else After(old(Abs()), StatusRequest(applyNo))
      ensures r == if applyNo == "" then Err(400)
                   else if applyNo !in transfers then Err(404) else Ok(transfers[applyNo].status)
    {
      if applyNo == "" {
        return Err(400);
      }
      if applyNo !in transfers {
        return Err(404);
      }
      var st := transfers[applyNo];
      st := st.(pollCount := st.pollCount + 1);
      if st.pollCount == 1 {
        st := st.(status := "AcceptedToBank");
      } else if st.pollCount == 2 {
        st := st.(status := "Approved");
      } else {
        st := st.(status := "Settled");
      }
      assert st == transfers[applyNo].(pollCount := st.pollCount, status := StatusAt(st.pollCount));
      transfers := transfers[applyNo := st];
      AfterIsOk(old(Abs()), StatusRequest(applyNo));
      return Ok(st.status);
    }
  }

  ghost predicate LedgerOk(l: Ledger) {
    && (forall k :: k in l.keyIndex ==> k != "" && l.keyIndex[k] == ApplyNo(k) && ApplyNo(k) in l.transfers)
    && (forall no :: no in l.transfers ==>
          var st := l.transfers[no];
          st.applyNo == no == ApplyNo(st.key) && st.key in l.keyIndex && st.status == StatusAt(st.pollCount))
  }

  /** The first poll of a record shows AcceptedToBank, the second Approved, every later one Settled. */
  lemma PollShows(l: Ledger, no: string)
    ensures After(l, StatusRequest(no)).keyIndex == l.keyIndex
    ensures After(l, StatusRequest(no)).transfers
         == if no !in l.transfers then l.transfers
            else
              var st := l.transfers[no];
              l.transfers[no := st.(pollCount := st.pollCount + 1,
                                    status := if st.pollCount == 0 then "AcceptedToBank"
                                              else if st.pollCount == 1 then "Approved" else "Settled")]
  {
  }

  // ---------- de-duplication ----------

  lemma AfterIsOk(l: Ledger, r: Request)
    requires LedgerOk(l)
    ensures LedgerOk(After(l, r))
  {
  }

  /** The accepted keys are those named so far, and a record shows the amount its key was first named with. */
  ghost predicate Faithful(rs: seq<Request>, l: Ledger) {
    && (forall k :: k in l.keyIndex <==> k != "" && FirstAmount(rs, k).Some?)
    && (forall no :: no in l.transfers ==> FirstAmount(rs, l.transfers[no].key) == Some(l.transfers[no].amount))
  }

  lemma FaithfulStep(rs: seq<Request>, l: Ledger)
    requires rs != [] && LedgerOk(l) && Faithful(rs[..|rs| - 1], l)
    ensures Faithful(rs, After(l, rs[|rs| - 1]))
  {
    var before, r := rs[..|rs| - 1], rs[|rs| - 1];
    forall k
      ensures FirstAmount(rs, k) == if FirstAmount(before, k).None? && r.TransferRequest? && r.key == k
                                    then Some(r.amount) else FirstAmount(before, k)
    {
    }
    match r
    case TransferRequest(key, amount) =>
      if key != "" && key !in l.keyIndex {
        assert FirstAmount(rs, key) == Some(amount);
      }
    case StatusRequest(no) =>
  }

  lemma {:induction false} LedgerAfterAll(rs: seq<Request>)
    ensures LedgerOk(AfterAll(rs)) && Faithful(rs, AfterAll(rs))
  {
    if rs != [] {
      var before := rs[..|rs| - 1];
      LedgerAfterAll(before);
      AfterIsOk(AfterAll(before), rs[|rs| - 1]);
      FaithfulStep(rs, AfterAll(before));
    }
  }

  lemma {:induction false} KeysPersist(rs: seq<Request>, more: seq<Request>, key: string)
    requires key in AfterAll(rs).keyIndex
    ensures key in AfterAll(rs + more).keyIndex
  {
    if more == [] {
      assert rs + more == rs;
    } else {
      KeysPersist(rs, more[..|more| - 1], key);
      assert (rs + more)[..|rs + more| - 1] == rs + more[..|more| - 1];
    }
  }

  /** A key that was accepted once is answered with the same apply number for ever, and asking again, with whatever
      amount, changes nothing. */
  lemma RepeatedKeyIsInert(rs: seq<Request>, more: seq<Request>, key: string, amount: int)
    requires key in AfterAll(rs).keyIndex
    ensures key in AfterAll(rs + more).keyIndex && AfterAll(rs + more).keyIndex[key] == AfterAll(rs).keyIndex[key]
    ensures AfterAll(rs + more + [TransferRequest(key, amount)]) == AfterAll(rs + more)
  {
    KeysPersist(rs, more, key);
    LedgerAfterAll(rs);
    LedgerAfterAll(rs + more);
    var all := rs + more + [TransferRequest(key, amount)];
    assert all[..|all| - 1] == rs + more;
  }

  lemma SameNumber(a: string, b: string)
    ensures ApplyNo(a) == ApplyNo(b) <==> a == b || (|a| >= PREFIX && |b| >= PREFIX && a[..PREFIX] == b[..PREFIX])
  {
    CutNumber(a);
    CutNumber(b);
    if ApplyNo(a) == ApplyNo(b) {
      assert ApplyNo(a)[2..] == ApplyNo(b)[2..];
    }
  }

  lemma CutNumber(key: string)
    ensures ApplyNo(key) == "AP" + if |key| >= PREFIX then key[..PREFIX] else key
  {
    var no := "AP" + key;
    if |no| > 16 {
      assert no[..16] == "AP" + key[..PREFIX];
    } else if |key| == PREFIX {
      assert key[..PREFIX] == key;
    }
  }

  /** Every accepted key has its own record if and only if no two accepted keys share their first 14 characters (the
      apply number keeps no more of them): otherwise the later key takes the earlier one's record over. */
  lemma OwnRecordIff(rs: seq<Request>)
    ensures var l := AfterAll(rs);
            (forall k :: k in l.keyIndex ==>
               l.keyIndex[k] in l.transfers && l.transfers[l.keyIndex[k]].key == k
               && FirstAmount(rs, k) == Some(l.transfers[l.keyIndex[k]].amount))
            <==>
            (forall a, b :: a in l.keyIndex && b in l.keyIndex && a != b ==>
               !(|a| >= PREFIX && |b| >= PREFIX && a[..PREFIX] == b[..PREFIX]))
  {
    LedgerAfterAll(rs);
    var l := AfterAll(rs);
    forall a, b | a in l.keyIndex && b in l.keyIndex && a != b
      ensures (|a| >= PREFIX && |b| >= PREFIX && a[..PREFIX] == b[..PREFIX]) <==> l.keyIndex[a] == l.keyIndex[b]
    {
      SameNumber(a, b);
    }
    if forall a, b :: a in l.keyIndex && b in l.keyIndex && a != b ==>
         !(|a| >= PREFIX && |b| >= PREFIX && a[..PREFIX] == b[..PREFIX]) {
      forall k | k in l.keyIndex
        ensures l.transfers[l.keyIndex[k]].key == k
      {
        var owner := l.transfers[l.keyIndex[k]].key;
        assert l.keyIndex[owner] == l.keyIndex[k];
      }
    }
  }

  /** Two keys that differ only after their first 14 characters: the second request takes over the record of the first,
      whose amount is lost and whose polls then report on the other transfer. */
  lemma SharedPrefixTakesOver(prefix: string, a: string, b: string, amount1: int, amount2: int)
    requires |prefix| == PREFIX && a != b
    ensures var l := AfterAll([TransferRequest(prefix + a, amount1), TransferRequest(prefix + b, amount2)]);
            && prefix + a in l.keyIndex && prefix + b in l.keyIndex
            && l.keyIndex[prefix + a] == l.keyIndex[prefix + b] && l.keyIndex[prefix + a] in l.transfers
            && l.transfers[l.keyIndex[prefix + a]].key == prefix + b
            && l.transfers[l.keyIndex[prefix + a]].amount == amount2
  {
    var k1, k2 := prefix + a, prefix + b;
    var r1, r2 := TransferRequest(k1, amount1), TransferRequest(k2, amount2);
    assert k1[..PREFIX] == prefix == k2[..PREFIX];
    assert k1 != k2 by {
      assert k1[PREFIX..] == a && k2[PREFIX..] == b;
    }
    SameNumber(k1, k2);
    assert [r1, r2][..1] == [r1] && [r1][..0] == [];
    assert AfterAll([r1]) == After(Ledger(map[], map[]), r1);
    assert AfterAll([r1, r2]) == After(AfterAll([r1]), r2);
  }

  // ---------- polling this bank ----------

  function Asked(l: Ledger, no: string, times: nat): Ledger {
    if times == 0 then l else After(Asked(l, no, times - 1), StatusRequest(no))
  }

  lemma {:induction false} AskedStatus(l: Ledger, no: string, times: nat)
    requires LedgerOk(l) && no in l.transfers
    ensures var l' := Asked(l, no, times);
            && no in l'.transfers && l'.transfers[no].pollCount == l.transfers[no].pollCount + times
            && l'.transfers[no].status == StatusAt(l.transfers[no].pollCount + times)
  {
    if times > 0 {
      AskedStatus(l, no, times - 1);
    }
  }

  /** Each poll reports what the stand-in bank then shows. */
  ghost predicate RepliesFrom(l: Ledger, no: string, ps: seq<Poll>) {
    forall i :: 0 <= i < |ps| ==>
      var l' := Asked(l, no, i + 1);
      no in l'.transfers && ps[i].reply.Reported? && ps[i].reply.status == l'.transfers[no].status
  }

  lemma RepliesAre(l: Ledger, no: string, ps: seq<Poll>)
    requires LedgerOk(l) && no in l.transfers && l.transfers[no].pollCount == 0 && RepliesFrom(l, no, ps)
    ensures forall i :: 0 <= i < |ps| ==>
              Understood(ps[i].reply).Some?
              && Understood(ps[i].reply).value.0 == if i == 0 then Requested else if i == 1 then Approved else Settled
  {
    forall i | 0 <= i < |ps|
      ensures ps[i].reply.Reported? && ps[i].reply.status == StatusAt(i + 1)
    {
      AskedStatus(l, no, i + 1);
    }
  }

  /** End to end: a transfer the stand-in bank has taken settles at the third poll, if three attempts are allowed; the
      check never polls a fourth time, and with fewer attempts it fails on a transfer that is not final. */
  lemma SettlesAtThirdPoll(l: Ledger, no: string, t: Tables, e: Events.EventId, ps: seq<Poll>, maxAttempt: nat)
    requires LedgerOk(l) && no in l.transfers && l.transfers[no].pollCount == 0 && RepliesFrom(l, no, ps)
    requires maxAttempt >= 1 && TablesInv(t) && EventIs(t, e, Events.TransferStatusCheck)
    requires ValidPolls(t, e, ps, maxAttempt)
    requires t.outbox[e] == NewRow(t.outbox[e].event, t.outbox[e].createdAt)
    requires var id := t.outbox[e].event.aggregateId; id in t.transfers && t.transfers[id].status == Requested
    ensures var t' := AfterPolls(t, e, ps, maxAttempt);
            var id := t.outbox[e].event.aggregateId;
            && e in t'.outbox && id in t'.transfers && |ps| <= 3 && |ps| <= maxAttempt
            && t'.transfers[id].status == (if |ps| == 3 then Settled else if |ps| == 2 then Approved else Requested)
            && t'.outbox[e].status == (if |ps| == 3 then RowSent else if |ps| == maxAttempt then RowFailed
                                        else RowPending)
            && t'.outbox[e].attemptCount == |ps|
  {
    RepliesAre(l, no, ps);
    PollingDecides(t, e, ps, maxAttempt);
    if |ps| > 2 {
      assert IsFinal(Understood(ps[2].reply));
    } else {
      FoldTwo(ps);
    }
  }

  lemma {:induction false} FoldTwo(ps: seq<Poll>)
    requires |ps| <= 2
    requires |ps| > 0 ==> Understood(ps[0].reply).Some? && Understood(ps[0].reply).value.0 == Requested
    requires |ps| > 1 ==> Understood(ps[1].reply).Some? && Understood(ps[1].reply).value.0 == Approved
    ensures Fold(Requested, ps) == if |ps| == 2 then Approved else Requested
  {
    if |ps| == 2 {
      assert Fold(Requested, ps) == Fold(Requested, ps[1..]);
      assert ps[1..][0] == ps[1];
      assert Fold(Requested, ps[1..]) == Fold(Approved, ps[1..][1..]);
    }
  }
}
