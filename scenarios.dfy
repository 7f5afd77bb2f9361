/** Clients of the storage cell, one per usage scenario of `useStorage`; each
    shows what a caller can conclude from the contracts alone. */
module Scenarios {
  import opened Wrappers
  import opened Js
  import opened Serializers
  import opened StorageLike
  import opened UseStorage

  /** JSON functions for cells that never use them. */
  function UnusedJson(): JsonCodec {
    JsonCodec(v => "", text => Err(SyntaxError))
  }

  method MissingKeyWritesDefault() {
    var store := new Storage(map[], NoFaults());
    var cell := new StorageRef("k", Num(42), store, Options(), UnusedJson(), Number);
    assert Decimal.IntToString(42) == "42";
    assert cell.data == Num(42);
    assert store.items == map["k" := "42"];
    assert cell.errors == [];
  }

  method PresentKeyOverridesDefault() {
    var store := new Storage(map["k" := "7"], NoFaults());
    var cell := new StorageRef("k", Num(42), store, Options(), UnusedJson(), Number);
    Decimal.IntTextRoundTrip(7);
    assert Decimal.IntToString(7) == "7";
    assert cell.data == Num(7);
    assert store.items == map["k" := "7"];
  }

  method ExternalChangeUpdatesCell() {
    var store := new Storage(map["k" := "5"], NoFaults());
    var cell := new StorageRef("k", Num(42), store, Options(), UnusedJson(), Number);
    cell.Read(Some(StorageEvent(Some("k"), Some("9"))));
    Decimal.IntTextRoundTrip(9);
    assert Decimal.IntToString(9) == "9";
    assert cell.data == Num(9);
    assert store.items == map["k" := "5"];
  }

  method ForeignEventIgnored() {
    var store := new Storage(map["k" := "x"], NoFaults());
    var cell := new StorageRef("k", Str(""), store, Options(), UnusedJson(), String);
    assert cell.data == Str("x");
    cell.Read(Some(StorageEvent(Some("other"), Some("y"))));
    cell.Read(Some(StorageEvent(None, None)));
    assert cell.data == Str("x");
    assert store.items == map["k" := "x"];
    assert cell.errors == [];
  }

  method NullRemovesKey() {
    var store := new Storage(map["k" := "true", "other" := "x"], NoFaults());
    var cell := new StorageRef("k", Bool(false), store, Options(), UnusedJson(), Boolean);
    assert cell.data == Bool(true);
    cell.Assign(Null);
    cell.Flush();
    assert store.items == map["other" := "x"];
    var got := store.GetItem("k");
    assert got == Ok(None);
  }

  method GetItemFailureIsContained() {
    var faults := Faults((items, key) => Some(DomException("SecurityError")),
                         (items, key, value) => None, (items, key) => None);
    var store := new Storage(map[], faults);
    var cell := new StorageRef("k", Num(42), store, Options(), UnusedJson(), Number);
    assert cell.errors == [DomException("SecurityError")];
    assert cell.data == Num(42);
    assert store.items == map[];
  }

  method QuotaFailureKeepsOldText() {
    var faults := Faults((items, key) => None,
                         (items, key, value) => if |value| > 3 then Some(DomException("QuotaExceededError")) else None,
                         (items, key) => None);
    var store := new Storage(map["k" := "ab"], faults);
    var cell := new StorageRef("k", Str("zz"), store, Options(), UnusedJson(), String);
    assert cell.data == Str("ab");
    cell.Assign(Str("abcdef"));
    cell.Flush();
    assert store.items == map["k" := "ab"];
    assert cell.errors == [DomException("QuotaExceededError")];
    assert cell.data == Str("abcdef");
  }

  method TwoCellsShareAKey() {
    var store := new Storage(map[], NoFaults());
    var writer := new StorageRef("flag", Bool(false), store, Options(false, None), UnusedJson(), Boolean);
    var reader := new StorageRef("flag", Bool(false), store, Options(false, None), UnusedJson(), Boolean);
    assert store.items == map[];
    writer.Assign(Bool(true));
    writer.Flush();
    assert store.items == map["flag" := "true"];
    reader.Read(Some(StorageEvent(Some("flag"), Some(store.items["flag"]))));
    assert reader.data == Bool(true);
  }

  method NullEventWritesDefaultBack() {
    var store := new Storage(map["k" := "x"], NoFaults());
    var cell := new StorageRef("k", Str("init"), store, Options(), UnusedJson(), String);
    assert cell.data == Str("x");
    cell.Read(Some(StorageEvent(Some("k"), None)));
    assert cell.data == Str("init");
    assert store.items == map["k" := "init"];
  }
}
