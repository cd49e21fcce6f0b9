/** What `bridgeETH` promises about its log, stated over the functions that
    specify its methods. */
module BridgeProperties {
  import opened Wrappers
  import opened Progress
  import opened Bridge

  // The completion detector of one key.

  /** Once `logged` is set, no later snapshot logs anything or clears it. */
  lemma {:induction false} SilentAfterSuccess(line: SuccessLine, done: seq<Snapshot>, later: seq<Snapshot>)
    requires Watch(line, done).0
    ensures Watch(line, done + later) == Watch(line, done)
  {
    if later != [] {
      var n := |later| - 1;
      var all := done + later;
      SilentAfterSuccess(line, done, later[..n]);
      assert all[..|all| - 1] == done + later[..n];
      assert all[|all| - 1] == later[n];
      var before := Watch(line, all[..|all| - 1]);
      assert before == Watch(line, done);
      assert ProgressStep(line, before.0, later[n]) == (true, []);
      assert before.1 + [] == before.1;
    } else {
      assert done + later == done;
    }
  }

  lemma {:induction false} WatchOutcome(line: SuccessLine, snapshots: seq<Snapshot>)
    ensures Watch(line, snapshots).0 <==> AnyHash(snapshots)
    ensures !AnyHash(snapshots) ==> Watch(line, snapshots).1 == []
    ensures forall j :: FirstWithHash(snapshots, j) ==> Watch(line, snapshots).1 == [SuccessFor(line, snapshots[j])]
  {
    if snapshots != [] {
      var n := |snapshots| - 1;
      var init := snapshots[..n];
      WatchOutcome(line, init);
      forall i | 0 <= i < n ensures init[i] == snapshots[i] { }
      if AnyHash(init) {
        forall j | FirstWithHash(snapshots, j) ensures FirstWithHash(init, j) {
          var i :| 0 <= i < n && HasHash(init[i]);
          assert j < n;
        }
        var i :| 0 <= i < n && HasHash(init[i]);
        assert HasHash(snapshots[i]);
      } else {
        forall j | FirstWithHash(snapshots, j) ensures j == n { }
        if HasHash(snapshots[n]) {
          assert FirstWithHash(snapshots, n);
        } else {
          forall i | 0 <= i < |snapshots| ensures !HasHash(snapshots[i]) {
            if i < n { assert init[i] == snapshots[i]; }
          }
        }
      }
    }
  }

  /** When some snapshot carries a hash, there is a first one. */
  lemma {:induction false} FirstWithHashExists(snapshots: seq<Snapshot>)
    requires AnyHash(snapshots)
    ensures exists j :: FirstWithHash(snapshots, j)
  {
    var n := |snapshots| - 1;
    if AnyHash(snapshots[..n]) {
      FirstWithHashExists(snapshots[..n]);
      var j :| FirstWithHash(snapshots[..n], j);
      assert FirstWithHash(snapshots, j);
    } else {
      forall i | 0 <= i < n ensures !HasHash(snapshots[i]) {
        assert snapshots[..n][i] == snapshots[i];
      }
      assert FirstWithHash(snapshots, n);
    }
  }

  /** Over any snapshots delivered to one key, at most one SUCCESS entry is
      logged, and exactly when some snapshot carries a hash. */
  lemma SuccessAtMostOnce(line: SuccessLine, snapshots: seq<Snapshot>)
    ensures Levels(Watch(line, snapshots).1) == if AnyHash(snapshots) then [SUCCESS] else []
  {
    WatchOutcome(line, snapshots);
    if AnyHash(snapshots) {
      FirstWithHashExists(snapshots);
    }
  }

  /** The SUCCESS entry links to the explorer prefix followed by the first
      hash of the first snapshot that has one. */
  lemma SuccessLinksFirstHash(line: SuccessLine, snapshots: seq<Snapshot>, j: int)
    requires FirstWithHash(snapshots, j)
    ensures Watch(line, snapshots).1 == [Success(line.amount, line.destination, line.explorerUrl + FirstHash(snapshots[j]))]
  {
    WatchOutcome(line, snapshots);
  }

  // One key.

  lemma {:induction false} LevelsAppend(a: seq<LogEntry>, b: seq<LogEntry>)
    ensures Levels(a + b) == Levels(a) + Levels(b)
  {
    if a != [] {
      LevelsAppend(a[1..], b);
      assert (a + b)[1..] == a[1..] + b;
    } else {
      assert a + b == b;
    }
  }

  /** The entries of a key, spelt out for the two ways its `try` block can go. */
  lemma WalletLogCases(req: Request, attempt: KeyAttempt)
    ensures !QuoteFetched(req, attempt.outcome) ==>
              exists m :: WalletLog(req, attempt) == [Info(KeyPrefix(attempt.privateKey)), Error(KeyPrefix(attempt.privateKey), m)]
    ensures QuoteFetched(req, attempt.outcome) ==>
              WalletLog(req, attempt) ==
                [Info(KeyPrefix(attempt.privateKey)), Debug] + Watch(LineFor(req), attempt.outcome.quote.snapshots).1 +
                (if attempt.outcome.quote.end.ExecFails?
                 then [Error(KeyPrefix(attempt.privateKey), attempt.outcome.quote.end.message)] else [])
  {
    var prefix := KeyPrefix(attempt.privateKey);
    var tried := TryBlock(req, attempt.outcome);
    if !QuoteFetched(req, attempt.outcome) {
      assert tried.0 == [] && tried.1.Some?;
      assert WalletLog(req, attempt) == [Info(prefix), Error(prefix, tried.1.value)];
    }
  }


  /** Each key logs INFO; then ERROR if the wallet build, the amount parse or
      the quote fails; otherwise DEBUG, a SUCCESS exactly when a snapshot
      carried a hash, and ERROR last when `execute` throws. */
  lemma WalletLogShape(req: Request, attempt: KeyAttempt)
    ensures !QuoteFetched(req, attempt.outcome) ==> Levels(WalletLog(req, attempt)) == [INFO, ERROR]
    ensures QuoteFetched(req, attempt.outcome) ==>
              Levels(WalletLog(req, attempt)) ==
                [INFO, DEBUG] +
                (if AnyHash(attempt.outcome.quote.snapshots) then [SUCCESS] else []) +
                (if attempt.outcome.quote.end.ExecFails? then [ERROR] else [])
  {
    WalletLogCases(req, attempt);
    var log := WalletLog(req, attempt);
    if QuoteFetched(req, attempt.outcome) {
      var quote := attempt.outcome.quote;
      var watched := Watch(LineFor(req), quote.snapshots).1;
      var tail: seq<LogEntry> :=
        if quote.end.ExecFails? then [Error(KeyPrefix(attempt.privateKey), quote.end.message)] else [];
      SuccessAtMostOnce(LineFor(req), quote.snapshots);
      LevelsAppend([Info(KeyPrefix(attempt.privateKey)), Debug] + watched, tail);
      LevelsAppend([Info(KeyPrefix(attempt.privateKey)), Debug], watched);
      assert Levels([Info(KeyPrefix(attempt.privateKey)), Debug]) == [INFO, DEBUG];
    } else {
      var m :| log == [Info(KeyPrefix(attempt.privateKey)), Error(KeyPrefix(attempt.privateKey), m)];
      assert log[1..] == [Error(KeyPrefix(attempt.privateKey), m)];
      assert log[1..][1..] == [];
      assert Levels(log[1..]) == [ERROR];
    }
  }

  /** The SUCCESS entry of a key names the formatted amount, the destination
      chain and the explorer URL of the first hash of the first snapshot that has one. */
  lemma WalletSuccessEntry(req: Request, attempt: KeyAttempt, j: int)
    requires QuoteFetched(req, attempt.outcome)
    requires FirstWithHash(attempt.outcome.quote.snapshots, j)
    ensures |WalletLog(req, attempt)| >= 3
    ensures WalletLog(req, attempt)[1] == Debug
    ensures WalletLog(req, attempt)[2] ==
              Success(req.amount.formatted, req.destinationChainId,
                      req.explorerUrl + FirstHash(attempt.outcome.quote.snapshots[j]))
  {
    var line := LineFor(req);
    var snapshots := attempt.outcome.quote.snapshots;
    WalletLogCases(req, attempt);
    WatchOutcome(line, snapshots);
    assert Watch(line, snapshots).1 == [SuccessFor(line, snapshots[j])];
  }

  /** `onProgress` logs only SUCCESS entries. */
  lemma {:induction false} WatchOnlySuccess(line: SuccessLine, snapshots: seq<Snapshot>)
    ensures forall e :: e in Watch(line, snapshots).1 ==> e.Success?
  {
    if snapshots != [] {
      WatchOnlySuccess(line, snapshots[..|snapshots| - 1]);
    }
  }

  /** The `try` block itself logs only DEBUG and SUCCESS entries. */
  lemma TryBlockEntries(req: Request, outcome: Outcome)
    ensures forall e :: e in TryBlock(req, outcome).0 ==> e.Debug? || e.Success?
  {
    if QuoteFetched(req, outcome) {
      WatchOnlySuccess(LineFor(req), outcome.quote.snapshots);
    }
  }

  /** The key field of a key's INFO and ERROR entries is its six-character
      prefix; DEBUG and SUCCESS entries have no key field. An ERROR entry's
      `message` is the foreign error's text and is not constrained here. */
  lemma WalletLogRedacted(req: Request, attempt: KeyAttempt)
    ensures forall e :: e in WalletLog(req, attempt) && (e.Info? || e.Error?) ==> e.keyPrefix == KeyPrefix(attempt.privateKey)
  {
    TryBlockEntries(req, attempt.outcome);
  }

  // The whole batch.

  /** The log of a batch is the log of its first part followed by that of the
      rest: no key's outcome changes what a later key logs. */
  lemma {:induction false} BatchLogAppend(req: Request, a: seq<KeyAttempt>, b: seq<KeyAttempt>)
    ensures BatchLog(req, a + b) == BatchLog(req, a) + BatchLog(req, b)
  {
    if b != [] {
      var n := |b| - 1;
      var ab := a + b;
      BatchLogAppend(req, a, b[..n]);
      assert ab[..|ab| - 1] == a + b[..n];
      assert ab[|ab| - 1] == b[n];
      assert BatchLog(req, ab) == BatchLog(req, a + b[..n]) + WalletLog(req, b[n]);
    } else {
      assert a + b == a;
    }
  }

  /** Failure isolation: whatever the other keys do, key `i`'s own entries
      appear whole, after those of every earlier key and before those of every later one. */
  lemma KeySegment(req: Request, attempts: seq<KeyAttempt>, i: int)
    requires 0 <= i < |attempts|
    ensures BatchLog(req, attempts) ==
              BatchLog(req, attempts[..i]) + WalletLog(req, attempts[i]) + BatchLog(req, attempts[i + 1..])
  {
    assert attempts == attempts[..i + 1] + attempts[i + 1..];
    BatchLogAppend(req, attempts[..i + 1], attempts[i + 1..]);
    assert attempts[..i + 1][..i] == attempts[..i];
  }

  /** The key prefixes of the INFO entries of a log, in order. */
  function InfoPrefixes(log: seq<LogEntry>): seq<string>
  {
    if log == [] then []
    else (if log[0].Info? then [log[0].keyPrefix] else []) + InfoPrefixes(log[1..])
  }

  lemma {:induction false} InfoPrefixesAppend(a: seq<LogEntry>, b: seq<LogEntry>)
    ensures InfoPrefixes(a + b) == InfoPrefixes(a) + InfoPrefixes(b)
  {
    if a != [] {
      InfoPrefixesAppend(a[1..], b);
      assert (a + b)[1..] == a[1..] + b;
    } else {
      assert a + b == b;
    }
  }

  lemma {:induction false} NoInfo(log: seq<LogEntry>)
    requires forall e :: e in log ==> !e.Info?
    ensures InfoPrefixes(log) == []
  {
    if log != [] {
      assert log[0] in log;
      NoInfo(log[1..]);
    }
  }

  lemma WalletInfo(req: Request, attempt: KeyAttempt)
    ensures InfoPrefixes(WalletLog(req, attempt)) == [KeyPrefix(attempt.privateKey)]
  {
    var prefix := KeyPrefix(attempt.privateKey);
    var tried := TryBlock(req, attempt.outcome);
    var tail: seq<LogEntry> := if tried.1.Some? then [Error(prefix, tried.1.value)] else [];
    var rest := tried.0 + tail;
    assert WalletLog(req, attempt) == [Info(prefix)] + rest;
    InfoPrefixesAppend([Info(prefix)], rest);
    TryBlockEntries(req, attempt.outcome);
    NoInfo(rest);
  }

  /** Every key logs exactly one INFO entry, and these come in input order. */
  lemma {:induction false} OneInfoPerKey(req: Request, attempts: seq<KeyAttempt>)
    ensures |InfoPrefixes(BatchLog(req, attempts))| == |attempts|
    ensures forall i :: 0 <= i < |attempts| ==> InfoPrefixes(BatchLog(req, attempts))[i] == KeyPrefix(attempts[i].privateKey)
  {
    if attempts != [] {
      var n := |attempts| - 1;
      var before := BatchLog(req, attempts[..n]);
      var own := WalletLog(req, attempts[n]);
      assert BatchLog(req, attempts) == before + own;
      OneInfoPerKey(req, attempts[..n]);
      InfoPrefixesAppend(before, own);
      WalletInfo(req, attempts[n]);
      forall i | 0 <= i < |attempts|
        ensures InfoPrefixes(BatchLog(req, attempts))[i] == KeyPrefix(attempts[i].privateKey)
      {
        if i < n {
          assert attempts[..n][i] == attempts[i];
        }
      }
    }
  }


  /** The key field of every INFO and ERROR entry of the batch is at most six
      characters long and is the prefix of one of the keys. Error messages are
      not constrained. */
  lemma {:induction false} BatchLogRedacted(req: Request, attempts: seq<KeyAttempt>)
    ensures forall e :: e in BatchLog(req, attempts) && (e.Info? || e.Error?) ==>
              |e.keyPrefix| <= PrefixLength &&
              exists i :: 0 <= i < |attempts| && e.keyPrefix == KeyPrefix(attempts[i].privateKey)
  {
    if attempts != [] {
      var n := |attempts| - 1;
      BatchLogRedacted(req, attempts[..n]);
      WalletLogRedacted(req, attempts[n]);
      forall e | e in BatchLog(req, attempts) && (e.Info? || e.Error?)
        ensures |e.keyPrefix| <= PrefixLength &&
                exists i :: 0 <= i < |attempts| && e.keyPrefix == KeyPrefix(attempts[i].privateKey)
      {
        if e in BatchLog(req, attempts[..n]) {
          var i :| 0 <= i < n && e.keyPrefix == KeyPrefix(attempts[..n][i].privateKey);
          assert attempts[..n][i] == attempts[i];
        } else {
          assert e.keyPrefix == KeyPrefix(attempts[n].privateKey);
        }
      }
    }
  }

  /** The number of keys whose quote was fetched and whose execute delivered a hash. */
  function SucceedingKeys(req: Request, attempts: seq<KeyAttempt>): nat
  {
    if attempts == [] then 0
    else
      var last := attempts[|attempts| - 1];
      SucceedingKeys(req, attempts[..|attempts| - 1]) +
      if QuoteFetched(req, last.outcome) && AnyHash(last.outcome.quote.snapshots) then 1 else 0
  }

  function Count(levels: seq<Level>, level: Level): nat
  {
    if levels == [] then 0 else (if levels[0] == level then 1 else 0) + Count(levels[1..], level)
  }

  lemma {:induction false} CountAppend(a: seq<Level>, b: seq<Level>, level: Level)
    ensures Count(a + b, level) == Count(a, level) + Count(b, level)
  {
    if a != [] {
      CountAppend(a[1..], b, level);
      assert (a + b)[1..] == a[1..] + b;
    } else {
      assert a + b == b;
    }
  }

  /** The `logged` flag is fresh for every key: the batch logs one SUCCESS
      per key that got a quote and saw a hash, whatever the other keys did. */
  lemma {:induction false} OneSuccessPerSucceedingKey(req: Request, attempts: seq<KeyAttempt>)
    ensures Count(Levels(BatchLog(req, attempts)), SUCCESS) == SucceedingKeys(req, attempts)
  {
    if attempts != [] {
      var n := |attempts| - 1;
      var last := attempts[n];
      OneSuccessPerSucceedingKey(req, attempts[..n]);
      assert BatchLog(req, attempts) == BatchLog(req, attempts[..n]) + WalletLog(req, last);
      var own := if QuoteFetched(req, last.outcome) && AnyHash(last.outcome.quote.snapshots) then 1 else 0;
      assert SucceedingKeys(req, attempts) == SucceedingKeys(req, attempts[..n]) + own;
      LevelsAppend(BatchLog(req, attempts[..n]), WalletLog(req, last));
      CountAppend(Levels(BatchLog(req, attempts[..n])), Levels(WalletLog(req, last)), SUCCESS);
      WalletLogShape(req, last);
      if QuoteFetched(req, last.outcome) {
        var q := last.outcome.quote;
        var s: seq<Level> := if AnyHash(q.snapshots) then [SUCCESS] else [];
        var e: seq<Level> := if q.end.ExecFails? then [ERROR] else [];
        CountAppend([INFO, DEBUG] + s, e, SUCCESS);
        CountAppend([INFO, DEBUG], s, SUCCESS);
        assert Count([INFO, DEBUG], SUCCESS) == 0 by {
          assert [INFO, DEBUG][1..] == [DEBUG];
        }
        assert Count(s, SUCCESS) == if AnyHash(q.snapshots) then 1 else 0;
        assert Count(e, SUCCESS) == 0;
        assert Count(Levels(WalletLog(req, last)), SUCCESS) == own;
      } else {
        assert Count([INFO, ERROR], SUCCESS) == 0 by {
          assert [INFO, ERROR][1..] == [ERROR];
        }
      }
    }
  }
}
