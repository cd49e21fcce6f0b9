/** A concrete run: two keys on origin chain 1 towards chain 10 for "0.5"
    ether; the first key's execute reports hash "0xabc", the second key's
    quote fails. */
module BridgeScenario {
  import opened Wrappers
  import opened Network
  import opened Progress
  import opened Bridge

  function OneHash(h: string): Snapshot
  {
    Snapshot(Some([Step(Some([Item(Some([Some(TxRecord(Some(h)))]))]))]))
  }

  lemma TwoKeyRun()
    ensures SelectNetwork(1).baseApiUrl == MainnetRelayApi
    ensures BatchLog(Request(10, Parsed("0.5"), "https://x/"),
                     [KeyAttempt("0x1111aaaa", WalletBuilt(QuoteOk([OneHash("0xabc")], Settled))),
                      KeyAttempt("0x2222bbbb", WalletBuilt(QuoteFails("no route")))]) ==
            [Info("0x1111"), Debug, Success("0.5", 10, "https://x/0xabc"),
             Info("0x2222"), Error("0x2222", "no route")]
  {
    var p := OneHash("0xabc");
    var record := Some(TxRecord(Some("0xabc")));
    var item := Item(Some([record]));
    var step := Step(Some([item]));
    assert ItemsOf([step]) == [item] + ItemsOf([]);
    assert RecordsOf([item]) == [record] + RecordsOf([]);
    assert HashFields([record]) == [Some("0xabc")] + HashFields([]);
    assert Truthy([Some("0xabc")]) == ["0xabc"] + Truthy([]);
    assert p == Snapshot(Some([step]));
    assert ItemsOf([step]) == [item];
    assert RecordsOf([item]) == [record];
    assert HashFields([record]) == [Some("0xabc")];
    assert Truthy([Some("0xabc")]) == ["0xabc"];
    assert TxHashes(p) == Some(["0xabc"]);
    assert [p][..0] == [];
    var req := Request(10, Parsed("0.5"), "https://x/");
    var first := KeyAttempt("0x1111aaaa", WalletBuilt(QuoteOk([p], Settled)));
    var second := KeyAttempt("0x2222bbbb", WalletBuilt(QuoteFails("no route")));
    assert "0x1111aaaa"[..6] == "0x1111";
    assert "0x2222bbbb"[..6] == "0x2222";
    var line := LineFor(req);
    assert line == SuccessLine("0.5", 10, "https://x/");
    assert HasHash(p) && FirstHash(p) == "0xabc";
    assert Watch(line, [][..0]) == (false, []);
    assert "https://x/" + "0xabc" == "https://x/0xabc";
    assert SuccessFor(line, p) == Success("0.5", 10, "https://x/0xabc");
    assert ProgressStep(line, false, p) == (true, [Success("0.5", 10, "https://x/0xabc")]);
    assert Watch(LineFor(req), [p]).1 == [Success("0.5", 10, "https://x/0xabc")];
    assert WalletLog(req, first) == [Info("0x1111"), Debug, Success("0.5", 10, "https://x/0xabc")];
    assert WalletLog(req, second) == [Info("0x2222"), Error("0x2222", "no route")];
    assert [first, second][..1] == [first];
  }
}
