/** The integer parts of `updateDisplay`: the `m:ss` countdown text, the
    `i / N` position label, and the two progress indicators as exact
    numerator/denominator pairs. Each text has a parser as its partner. */
module Display {
  import opened Decimal
  import Positions

  datatype Option<T> = None | Some(value: T)

  /** A progress fraction `num / den`, kept exact. */
  datatype Ratio = Ratio(num: int, den: int)

  predicate WithinOne(r: Ratio) {
    0 < r.den && 0 <= r.num <= r.den
  }

  /** The countdown text: whole minutes, a colon, then the seconds of the
      current minute padded to two digits. */
  function TimeText(t: nat): (r: string)
    ensures 4 <= |r| && r[|r| - 3] == ':'
    ensures t < 600 ==> |r| == 4
    ensures Canonical(r[..|r| - 3]) && Value(r[..|r| - 3]) == t / 60
    ensures AllDigits(r[|r| - 2..]) && Value(r[|r| - 2..]) == t % 60
  {
    var m, ss := Show(t / 60), PadTwo(t % 60);
    var r := m + ":" + ss;
    assert r[..|r| - 3] == m;
    assert r[|r| - 2..] == ss;
    ValueOfShow(t / 60);
    ValueOfPadTwo(t % 60);
    r
  }

  /** Reads back a countdown text; `None` unless it is a numeral, a colon,
      and two digits below 60. */
  function ParseTimeText(text: string): Option<nat> {
    if |text| < 4 || text[|text| - 3] != ':' then None
    else
      var m, ss := text[..|text| - 3], text[|text| - 2..];
      if Canonical(m) && AllDigits(ss) && Value(ss) < 60 then Some(Value(m) * 60 + Value(ss))
      else None
  }

  lemma TimeTextRoundTrip(t: nat)
    ensures ParseTimeText(TimeText(t)) == Some(t)
  {
  }

  /** Different remaining times never show the same text. */
  lemma TimeTextInjective(a: nat, b: nat)
    requires TimeText(a) == TimeText(b)
    ensures a == b
  {
    TimeTextRoundTrip(a);
    TimeTextRoundTrip(b);
  }

  /** The first index of `c` in `s`, or `|s|` when it does not occur. */
  function IndexOf(s: string, c: char): (k: nat)
    ensures k <= |s|
    ensures k < |s| ==> s[k] == c
    ensures forall i :: 0 <= i < k ==> s[i] != c
  {
    if s == [] then 0 else if s[0] == c then 0 else 1 + IndexOf(s[1..], c)
  }

  /** The label for the position with 0-based index `position`: its
      1-based number, " / ", then the number of positions. */
  function PositionLabel(position: nat): (r: string)
    ensures |r| >= 5
  {
    Show(position + 1) + " / " + Show(Positions.Count)
  }

  /** Reads back a label as the pair (1-based number, count); each side
      must be a numeral without leading zeros. */
  function ParseLabel(text: string): Option<(nat, nat)> {
    var k := IndexOf(text, '/');
    if k < 2 || |text| < k + 3 || text[k - 1] != ' ' || text[k + 1] != ' ' then None
    else
      var left, right := text[..k - 1], text[k + 2..];
      if Canonical(left) && Canonical(right) then Some((Value(left), Value(right))) else None
  }

  lemma PositionLabelRoundTrip(position: nat)
    ensures ParseLabel(PositionLabel(position)) == Some((position + 1, Positions.Count))
  {
    var a, b := Show(position + 1), Show(Positions.Count);
    var r := PositionLabel(position);
    assert r[|a| + 1] == '/';
    forall i | 0 <= i < |a| + 1
      ensures r[i] != '/'
    {
      if i < |a| { assert r[i] == a[i]; assert IsDigit(a[i]); }
    }
    var k := IndexOf(r, '/');
    assert k == |a| + 1;
    assert r[..k - 1] == a;
    assert r[k + 2..] == b;
    ValueOfShow(position + 1);
    ValueOfShow(Positions.Count);
  }

  /** The progress bar: positions already held plus the part of the
      current one that has elapsed, over the whole session. */
  function OverallProgress(position: int, total: int, remaining: int): (r: Ratio)
    ensures 0 <= position < Positions.Count && 0 < total && 0 <= remaining <= total ==> WithinOne(r)
  {
    var r := Ratio(position * total + (total - remaining), Positions.Count * total);
    if 0 <= position < Positions.Count && 0 < total && 0 <= remaining <= total then
      assert position * total <= (Positions.Count - 1) * total by {
        MulMonotone(position, Positions.Count - 1, total);
      }
      r
    else r
  }

  /** The circle: the elapsed part of the current position. */
  function CircleProgress(total: int, remaining: int): (r: Ratio)
    ensures 0 < total && 0 <= remaining <= total ==> WithinOne(r)
    ensures remaining == total ==> r.num == 0
    ensures remaining == 0 ==> r.num == r.den
    ensures 0 < total ==> r.den == total
    ensures r.num + remaining == r.den
  {
    Ratio(total - remaining, total)
  }

  /** The bar never goes back when the position advances: a later
      position shows at least as much progress, whatever the two
      countdowns, and exactly as much only when the earlier one had run
      out and the next one has just started. */
  lemma OverallMonotone(p: int, q: int, total: int, r1: int, r2: int)
    requires 0 <= p < q && 0 < total && 0 <= r1 <= total && 0 <= r2 <= total
    ensures OverallProgress(p, total, r1).num <= OverallProgress(q, total, r2).num
    ensures OverallProgress(p, total, r1).num == OverallProgress(q, total, r2).num
            <==> q == p + 1 && r1 == 0 && r2 == total
  {
    assert q * total - p * total == (q - p) * total;
    MulMonotone(1, q - p, total);
    if q - p >= 2 {
      MulMonotone(2, q - p, total);
    }
  }

  lemma MulMonotone(a: int, b: int, c: int)
    requires a <= b && 0 <= c
    ensures a * c <= b * c
  {
  }

  /** Everything `updateDisplay` derives from the counters, except the
      circle geometry and the percentage string. */
  datatype Frame = Frame(number: string, name: string, time: string, overall: Ratio, circle: Ratio)

  function Render(position: nat, total: int, remaining: nat): (f: Frame)
    requires position < Positions.Count
    ensures ParseLabel(f.number) == Some((position + 1, Positions.Count))
    ensures f.name == Positions.Names[position]
    ensures ParseTimeText(f.time) == Some(remaining)
    ensures 0 < total && remaining <= total ==> WithinOne(f.overall) && WithinOne(f.circle)
  {
    PositionLabelRoundTrip(position);
    TimeTextRoundTrip(remaining);
    Positions.CountIsLength();
    Frame(PositionLabel(position), Positions.Names[position], TimeText(remaining),
          OverallProgress(position, total, remaining), CircleProgress(total, remaining))
  }
}
