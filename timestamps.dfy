/** The per-sample timestamps both recorders write. A timestamp is the text
    `strftime("%Y-%m-%d %H:%M:%S.")` of a whole UTC second followed by a
    six-digit, zero-padded microsecond field; here it is first computed as a
    `Stamp` (that second and that field) and then rendered. */
module Timestamps {
  import opened Common

  datatype Stamp = Stamp(second: int, micro: int)

  /** Python's `x % 1` on a float: the fractional part, never negative. */
  function Frac(x: real): (f: real)
    ensures 0.0 <= f < 1.0
    ensures (x - f).Floor as real == x - f
  {
    var f := x - x.Floor as real;
    assert x - f == x.Floor as real;
    f
  }

  /** `int((x % 1) * 1_000_000)`: truncating a non-negative value. */
  function MicroOf(x: real): (m: int)
    ensures 0 <= m <= 999999
    ensures m as real <= Frac(x) * 1000000.0 < (m + 1) as real
  {
    (Frac(x) * 1000000.0).Floor
  }

  /** Python's `round`: to the nearest integer, ties to the even one. */
  function RoundHalfEven(x: real): (n: int)
    ensures x - 0.5 <= n as real <= x + 0.5
  {
    var f := x.Floor;
    var d := x - f as real;
    if d < 0.5 then f
    else if d > 0.5 then f + 1
    else if f % 2 == 0 then f else f + 1
  }

  /** The whole second `datetime.utcfromtimestamp(t)` shows: CPython first
      rounds `t` to the nearest microsecond (ties to even), so an instant
      less than half a microsecond before a second already shows that second. */
  function UtcSecond(t: real): (r: int)
    ensures r == t.Floor || r == t.Floor + 1
    ensures r == t.Floor + 1 <==> Frac(t) * 1000000.0 >= 999999.5
  {
    var n := RoundHalfEven(t * 1000000.0);
    RoundedSecond(t);
    n / 1000000
  }

  /** Where the microsecond count `t` rounds to lies: inside `t`'s own second
      unless `t` is within half a microsecond of the next one. */
  lemma RoundedSecond(t: real)
    ensures var n := RoundHalfEven(t * 1000000.0);
      && (Frac(t) * 1000000.0 < 999999.5 ==> t.Floor * 1000000 <= n < t.Floor * 1000000 + 1000000)
      && (Frac(t) * 1000000.0 >= 999999.5 ==> n == (t.Floor + 1) * 1000000)
  {
    var w := t.Floor;
    var g := Frac(t) * 1000000.0;
    var x := t * 1000000.0;
    assert x == (w * 1000000) as real + g;
    var n := RoundHalfEven(x);
    if g == 999999.5 {
      assert x == (w * 1000000 + 999999) as real + 0.5;
      assert x.Floor == w * 1000000 + 999999;
      assert (w * 1000000 + 999999) % 2 == 1 by {
        assert w * 1000000 + 999999 == 2 * (w * 500000 + 499999) + 1;
      }
    }
  }

  /** `a` does not come after `b`: earlier second, or same second and a
      field no larger. */
  predicate NotAfter(a: Stamp, b: Stamp)
  {
    a.second < b.second || (a.second == b.second && a.micro <= b.micro)
  }

  /** The stamp the HDF5 writer builds for instant `t`, as written: the second
      from `utcfromtimestamp(t)` (rounded) and the field from `t % 1`
      (truncated). */
  function SourceStamp(t: real): (s: Stamp)
    ensures 0 <= s.micro <= 999999
    ensures s.micro == FloorStamp(t).micro
    ensures s.second == FloorStamp(t).second || s.second == FloorStamp(t).second + 1
  {
    Stamp(UtcSecond(t), MicroOf(t))
  }

  /** As written, the stamp is the truncating one exactly when `t` is not
      within half a microsecond of the next second; in particular whenever
      its field is below 999999. */
  lemma SourceAgreesBelowLastMicro(t: real)
    ensures SourceStamp(t) == FloorStamp(t) <==> Frac(t) * 1000000.0 < 999999.5
    ensures MicroOf(t) < 999999 ==> SourceStamp(t) == FloorStamp(t)
  {
  }

  /** As written, a later instant can get an earlier stamp: 5.9999996 shows
      second 6 with field 999999, after 6.0, which shows second 6 with 0. */
  lemma SourceStampRunsBackward()
    ensures 5.9999996 < 6.0
    ensures SourceStamp(5.9999996) == Stamp(6, 999999)
    ensures SourceStamp(6.0) == Stamp(6, 0)
    ensures !NotAfter(SourceStamp(5.9999996), SourceStamp(6.0))
  {
    var t := 5.9999996;
    assert (t * 1000000.0).Floor == 5999999;
    assert RoundHalfEven(t * 1000000.0) == 6000000;
    assert t.Floor == 5;
    assert Frac(t) == 0.9999996;
    assert (Frac(t) * 1000000.0).Floor == 999999;
    assert RoundHalfEven(6.0 * 1000000.0) == 6000000;
    assert Frac(6.0) == 0.0;
  }

  /** The stamp with both parts taken from `t` truncated to the microsecond. */
  function FloorStamp(t: real): (s: Stamp)
    ensures 0 <= s.micro <= 999999
    ensures s.second * 1000000 + s.micro == (t * 1000000.0).Floor
  {
    var f := Frac(t);
    var w := t.Floor;
    assert t * 1000000.0 == (w * 1000000) as real + f * 1000000.0;
    Stamp(w, MicroOf(t))
  }

  /** Truncating stamps never run backward. */
  lemma FloorStampMonotone(t1: real, t2: real)
    requires t1 <= t2
    ensures NotAfter(FloorStamp(t1), FloorStamp(t2))
  {
    var a, b := FloorStamp(t1), FloorStamp(t2);
    assert (t1 * 1000000.0).Floor <= (t2 * 1000000.0).Floor;
    assert a.second * 1000000 + a.micro <= b.second * 1000000 + b.micro;
  }

  /** The instants the HDF5 writer assigns to a batch of `n` samples read at
      `now`: sample `i` at `now + i / n`, running forward over one second. */
  function BatchTimes(now: real, n: nat): (ts: seq<real>)
    ensures |ts| == n
    ensures n > 0 ==> ts[0] == now
    ensures forall i :: 0 <= i < n ==> now <= ts[i] < now + 1.0
    ensures forall i, j :: 0 <= i <= j < n ==> ts[i] <= ts[j]
  {
    var ts := seq(n, i requires 0 <= i < n => now + (i as real) / (n as real));
    forall i, j | 0 <= i <= j < n ensures ts[i] <= ts[j] && ts[j] < now + 1.0 {
      ShareOrdered(i, j, n);
    }
    ts
  }

  lemma ShareOrdered(i: nat, j: nat, n: nat)
    requires i <= j < n
    ensures 0.0 <= (i as real) / (n as real) <= (j as real) / (n as real) < 1.0
  {
    var nr := n as real;
    assert (j as real) / nr - (i as real) / nr == ((j - i) as real) / nr;
    assert (j as real) / nr * nr == j as real;
  }

  /** The stamps of a batch: one per sample, in order, each truncating its
      instant and none more than one second past `now`. */
  function BatchStamps(now: real, n: nat): (r: seq<Stamp>)
    ensures |r| == n
    ensures forall i :: 0 <= i < n ==> r[i] == FloorStamp(BatchTimes(now, n)[i])
    ensures forall i, j :: 0 <= i <= j < n ==> NotAfter(r[i], r[j])
    ensures forall i :: 0 <= i < n ==> NotAfter(FloorStamp(now), r[i]) && r[i].second <= now.Floor + 1
  {
    var ts := BatchTimes(now, n);
    var r := seq(n, i requires 0 <= i < n => FloorStamp(ts[i]));
    forall i, j | 0 <= i <= j < n ensures NotAfter(r[i], r[j]) {
      FloorStampMonotone(ts[i], ts[j]);
    }
    forall i | 0 <= i < n ensures NotAfter(FloorStamp(now), r[i]) && r[i].second <= now.Floor + 1 {
      FloorStampMonotone(now, ts[i]);
      FloorStampMonotone(ts[i], now + 1.0);
      assert FloorStamp(now + 1.0).second == now.Floor + 1;
    }
    r
  }

  /** The stamps the HDF5 writer stores for a batch, as written: one per
      sample, from its instant; each is the truncating one of `BatchStamps`
      except for an instant within half a microsecond of the next second. */
  function SourceStamps(now: real, n: nat): (r: seq<Stamp>)
    ensures |r| == n
    ensures forall i :: 0 <= i < n ==> r[i] == SourceStamp(BatchTimes(now, n)[i])
    ensures forall i :: 0 <= i < n ==> 0 <= r[i].micro <= 999999
    ensures forall i :: 0 <= i < n && Frac(BatchTimes(now, n)[i]) * 1000000.0 < 999999.5 ==>
      r[i] == BatchStamps(now, n)[i]
  {
    var ts := BatchTimes(now, n);
    var r := seq(n, i requires 0 <= i < n => SourceStamp(ts[i]));
    forall i | 0 <= i < n && Frac(ts[i]) * 1000000.0 < 999999.5 ensures r[i] == BatchStamps(now, n)[i] {
      SourceAgreesBelowLastMicro(ts[i]);
    }
    r
  }

  /** The stamp the CSV writer builds from its per-sample reading `now`: the
      second from `utcfromtimestamp(now)`, the field from the time elapsed
      since the batch started. */
  function CsvStamp(start: real, now: real): (s: Stamp)
    ensures s.second == UtcSecond(now)
    ensures 0 <= s.micro <= 999999
    ensures 0.0 <= now - start < 1.0 ==> s.micro == ((now - start) * 1000000.0).Floor
  {
    Stamp(UtcSecond(now), MicroOf(now - start))
  }

  /** The timestamp text: date prefix then the six-digit field. */
  function StampText(fmt: Formatter, s: Stamp): (r: string)
    requires 0 <= s.micro <= 999999
    ensures |r| == |fmt.datePrefix(s.second)| + 6
    ensures r[|r| - 1..] == [DigitChar(s.micro % 10)]
  {
    fmt.datePrefix(s.second) + PadDigits(s.micro, 6)
  }

  /** numpy's `dtype="S26"`: a byte string of at most 26 characters,
      longer text cut off. */
  function FixedS26(text: string): (r: string)
    ensures |r| <= 26
    ensures |text| <= 26 ==> r == text
    ensures |text| > 26 ==> r == text[..26]
  {
    if |text| <= 26 then text else text[..26]
  }

  /** The stored HDF5 timestamp: at most 26 characters; for a four-digit year
      (a 20-character prefix) exactly 26, ending in the field, which reads
      back as the microsecond count. */
  lemma StoredStampShape(fmt: Formatter, s: Stamp)
    requires 0 <= s.micro <= 999999
    ensures |FixedS26(StampText(fmt, s))| <= 26
    ensures |fmt.datePrefix(s.second)| == 20 ==>
      var r := FixedS26(StampText(fmt, s));
      |r| == 26 && r[..20] == fmt.datePrefix(s.second) && r[20..] == PadDigits(s.micro, 6)
      && DigitsValue(r[20..]) == s.micro
  {
    if |fmt.datePrefix(s.second)| == 20 {
      var r := FixedS26(StampText(fmt, s));
      assert r == fmt.datePrefix(s.second) + PadDigits(s.micro, 6);
      assert r[20..] == PadDigits(s.micro, 6);
      assert Pow10(6) == 1000000;
      PadDigitsRoundTrip(s.micro, 6);
    }
  }

  /** The timestamp column of one HDF5 batch. */
  function StampColumn(fmt: Formatter, stamps: seq<Stamp>): (r: seq<string>)
    requires forall i :: 0 <= i < |stamps| ==> 0 <= stamps[i].micro <= 999999
    ensures |r| == |stamps|
    ensures forall i :: 0 <= i < |stamps| ==> r[i] == FixedS26(StampText(fmt, stamps[i]))
  {
    seq(|stamps|, i requires 0 <= i < |stamps| => FixedS26(StampText(fmt, stamps[i])))
  }
}
