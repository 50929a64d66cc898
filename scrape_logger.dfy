/** The per-probe logger of the exporter: every line logged during a probe is
    forwarded upstream with its "level" value demoted to debug. */
module ScrapeLogger {

  datatype Level = Debug | Info | Warn | Error

  /** The dynamic values that appear in a go-kit key/value list. */
  datatype Value = Str(s: string) | Num(x: real) | LevelValue(level: Level) | ErrorValue(msg: string)

  /** `level.Key()`: the key under which go-kit stores a line's level. */
  const LevelKey: Value := Str("level")
  /** `level.DebugValue()`. */
  const DebugValue: Value := LevelValue(Debug)

  /** The rewrite loop would index past the end: the list has odd length and
      its last key is "level". */
  predicate Panics(keyvals: seq<Value>)
  {
    |keyvals| % 2 == 1 && keyvals[|keyvals| - 1] == LevelKey
  }

  /** Reference definition of the rewrite, pair by pair: a pair whose key is
      "level" gets the debug value, every other pair (and a trailing key
      without a value) is kept. */
  function Demoted(keyvals: seq<Value>): (r: seq<Value>)
    ensures |r| == |keyvals|
    decreases |keyvals|
  {
    if |keyvals| < 2 then keyvals
    else (if keyvals[0] == LevelKey then [LevelKey, DebugValue] else keyvals[..2]) + Demoted(keyvals[2..])
  }

  /** Entry `k` after the rewrite: a value (odd index) whose key is "level"
      is debug; every other entry is the original one. */
  function DemotedAt(keyvals: seq<Value>, k: nat): Value
    requires k < |keyvals|
  {
    if k % 2 == 1 && keyvals[k - 1] == LevelKey then DebugValue else keyvals[k]
  }

  /** The pair-by-pair definition agrees with the index-wise one. */
  lemma {:induction false} DemotedIsPointwise(keyvals: seq<Value>, k: nat)
    requires k < |keyvals|
    ensures Demoted(keyvals)[k] == DemotedAt(keyvals, k)
    decreases |keyvals|
  {
    if |keyvals| >= 2 {
      if k >= 2 {
        DemotedIsPointwise(keyvals[2..], k - 2);
        if k % 2 == 1 {
          assert keyvals[2..][k - 3] == keyvals[k - 1];
        }
      }
    }
  }

  /** The rewrite keeps every key (even index); a value (odd index) whose
      key is "level" becomes debug, and every other value is kept. */
  lemma DemotedProperties(keyvals: seq<Value>)
    ensures forall k {:trigger Demoted(keyvals)[k]} ::
              0 <= k < |keyvals| && k % 2 == 0 ==> Demoted(keyvals)[k] == keyvals[k]
    ensures forall j {:trigger Demoted(keyvals)[j]} ::
              0 < j < |keyvals| && j % 2 == 1 && keyvals[j - 1] == LevelKey ==> Demoted(keyvals)[j] == DebugValue
    ensures forall j {:trigger Demoted(keyvals)[j]} ::
              0 < j < |keyvals| && j % 2 == 1 && keyvals[j - 1] != LevelKey ==> Demoted(keyvals)[j] == keyvals[j]
  {
    forall k {:trigger Demoted(keyvals)[k]} | 0 <= k < |keyvals|
      ensures Demoted(keyvals)[k] == DemotedAt(keyvals, k)
    {
      DemotedIsPointwise(keyvals, k);
    }
  }

  /** Demoting an already demoted line changes nothing. */
  lemma {:induction false} DemotedIdempotent(keyvals: seq<Value>)
    ensures Demoted(Demoted(keyvals)) == Demoted(keyvals)
    decreases |keyvals|
  {
    if |keyvals| >= 2 {
      var head := if keyvals[0] == LevelKey then [LevelKey, DebugValue] else keyvals[..2];
      var d := Demoted(keyvals);
      assert d == head + Demoted(keyvals[2..]);
      assert d[..2] == head && d[2..] == Demoted(keyvals[2..]);
      DemotedIdempotent(keyvals[2..]);
      assert Demoted(d) == head + Demoted(d[2..]);
    }
  }

  /** `scrapeLogger.Log`: copies the caller's list and rewrites the copy in
      place; the result is what is forwarded to the upstream logger. The
      caller's array is only read. */
  method Log(keyvals: array<Value>) returns (forwarded: seq<Value>)
    requires !Panics(keyvals[..])
    ensures forwarded == Demoted(keyvals[..])
  {
    var n := keyvals.Length;
    var kvs := new Value[n];
    forall j | 0 <= j < n {
      kvs[j] := keyvals[j];
    }
    var i := 0;
    while i < n
      invariant 0 <= i <= n + 1 && i % 2 == 0
      invariant forall k :: i <= k < n ==> kvs[k] == keyvals[k]
      invariant forall k :: 0 <= k < i && k < n ==> kvs[k] == DemotedAt(keyvals[..], k)
    {
      if kvs[i] == LevelKey {
        kvs[i + 1] := DebugValue;
      }
      i := i + 2;
    }
    forwarded := kvs[..];
    forall k | 0 <= k < n
      ensures forwarded[k] == Demoted(keyvals[..])[k]
    {
      DemotedIsPointwise(keyvals[..], k);
    }
  }
}
