/**
 * `parseHMS` and `dateToSeconds` of the current datetime helpers
 * (src/core/datetime.ts), together with the `String.prototype.split` on a
 * single separator character that `parseHMS` relies on.
 */
module CoreDatetime {
  import opened Wrappers
  import JsNum

  /** `s.split(c)` for a one-character separator: the pieces between separators. */
  function Split(s: string, c: char): (parts: seq<string>)
    ensures |parts| >= 1
    ensures forall i :: 0 <= i < |parts| ==> c !in parts[i]
  {
    if s == [] then [""]
    else
      var p := Split(s[..|s| - 1], c);
      var x := s[|s| - 1];
      if x == c then p + [""] else p[..|p| - 1] + [p[|p| - 1] + [x]]
  }

  /** `parts.join(c)`. */
  function Join(parts: seq<string>, c: char): string
    requires |parts| >= 1
  {
    if |parts| == 1 then parts[0] else Join(parts[..|parts| - 1], c) + [c] + parts[|parts| - 1]
  }

  lemma {:induction false} JoinSplit(s: string, c: char)
    ensures Join(Split(s, c), c) == s
  {
    if s != [] {
      var p := Split(s[..|s| - 1], c);
      JoinSplit(s[..|s| - 1], c);
      if s[|s| - 1] != c {
        JoinLastExtended(p, c, s[|s| - 1]);
      }
    }
  }

  lemma JoinLastExtended(p: seq<string>, c: char, x: char)
    requires |p| >= 1
    ensures Join(p[..|p| - 1] + [p[|p| - 1] + [x]], c) == Join(p, c) + [x]
  {
    var q := p[..|p| - 1] + [p[|p| - 1] + [x]];
    if |p| > 1 {
      assert q[..|q| - 1] == p[..|p| - 1];
    }
  }

  /** Appending a separator and a separator-free piece to a string appends that piece to its split. */
  lemma {:induction false} SplitAppendPiece(s: string, c: char, piece: string)
    requires c !in piece
    ensures Split(s + [c] + piece, c) == Split(s, c) + [piece]
  {
    if piece == [] {
      assert (s + [c] + piece)[..|s + [c] + piece| - 1] == s;
    } else {
      var t := s + [c] + piece;
      var pre := piece[..|piece| - 1];
      assert t[..|t| - 1] == s + [c] + pre;
      SplitAppendPiece(s, c, pre);
      assert pre + [piece[|piece| - 1]] == piece;
    }
  }

  lemma {:induction false} SplitOfPiece(piece: string, c: char)
    requires c !in piece
    ensures Split(piece, c) == [piece]
  {
    if piece != [] {
      SplitOfPiece(piece[..|piece| - 1], c);
      assert piece[..|piece| - 1] + [piece[|piece| - 1]] == piece;
    }
  }

  /** Splitting the join of separator-free pieces gives the pieces back. */
  lemma {:induction false} SplitJoin(parts: seq<string>, c: char)
    requires |parts| >= 1
    requires forall i :: 0 <= i < |parts| ==> c !in parts[i]
    ensures Split(Join(parts, c), c) == parts
  {
    if |parts| == 1 {
      SplitOfPiece(parts[0], c);
    } else {
      var init := parts[..|parts| - 1];
      SplitJoin(init, c);
      SplitAppendPiece(Join(init, c), c, parts[|parts| - 1]);
    }
  }

  /**
   * `parseHMS(value)`: the three `:`-separated fields read with `parseInt`
   * as hours, minutes and seconds; -1 when the input does not split into
   * exactly three fields or a field is not a number.  There is no range
   * check on any field.
   */
  function ParseHMS(value: Option<string>): (r: int)
    ensures value.None? || value == Some("") ==> r == -1
    ensures |Split(OrElse(value, ""), ':')| != 3 ==> r == -1
    ensures var a := Split(OrElse(value, ""), ':');
      |a| == 3 && (JsNum.ParseInt(a[0]).None? || JsNum.ParseInt(a[1]).None? || JsNum.ParseInt(a[2]).None?) ==> r == -1
  {
    var a := Split(OrElse(value, ""), ':');
    if |a| != 3 then -1
    else match (JsNum.ParseInt(a[0]), JsNum.ParseInt(a[1]), JsNum.ParseInt(a[2]))
      case (Some(h), Some(m), Some(s)) => h * 3600 + m * 60 + s
      case _ => -1
  }

  /** The `h:m:s` rendering of three non-negative numbers, unpadded. */
  function HMS(h: nat, m: nat, s: nat): string
  {
    JsNum.NatToString(h) + ":" + JsNum.NatToString(m) + ":" + JsNum.NatToString(s)
  }

  lemma DigitsHaveNoColon(d: string)
    requires JsNum.AllDigits(d)
    ensures ':' !in d
  {
    forall k | 0 <= k < |d|
      ensures d[k] != ':'
    {
      assert JsNum.IsDigit(d[k]);
    }
  }

  /** Any three numbers written as `h:m:s` parse to `h*3600 + m*60 + s`, hours past 24 included. */
  lemma ParseHMSOfFields(h: nat, m: nat, s: nat)
    ensures ParseHMS(Some(HMS(h, m, s))) == h * 3600 + m * 60 + s
  {
    var parts := [JsNum.NatToString(h), JsNum.NatToString(m), JsNum.NatToString(s)];
    forall i | 0 <= i < 3
      ensures ':' !in parts[i]
    {
      DigitsHaveNoColon(parts[i]);
    }
    assert Join(parts, ':') == HMS(h, m, s) by {
      assert parts[..2][..1] == [parts[0]];
      assert Join(parts[..2], ':') == parts[0] + ":" + parts[1];
    }
    SplitJoin(parts, ':');
    JsNum.ParseIntOfNatToString(h);
    JsNum.ParseIntOfNatToString(m);
    JsNum.ParseIntOfNatToString(s);
  }

  /** A time of day as a `Date` carries it: `getHours()`, `getMinutes()`, `getSeconds()`. */
  datatype TimeOfDay = TimeOfDay(hours: int, minutes: int, seconds: int)
  {
    predicate Valid() { 0 <= hours < 24 && 0 <= minutes < 60 && 0 <= seconds < 60 }
  }

  /** `dateToSeconds(time)`: seconds since midnight, or undefined for no time. */
  function DateToSeconds(time: Option<TimeOfDay>): (r: Option<int>)
    ensures r.None? <==> time.None?
    ensures time.Some? && time.value.Valid() ==> 0 <= r.value < 86400
  {
    if time.None? then None
    else Some(time.value.hours * 3600 + time.value.minutes * 60 + time.value.seconds)
  }

  /** The clock reading at a number of seconds since midnight. */
  function SecondsToTime(secs: int): TimeOfDay
  {
    TimeOfDay(secs / 3600, secs % 3600 / 60, secs % 60)
  }

  /** Distinct valid times of day give distinct second counts. */
  lemma DateToSecondsInverse(t: TimeOfDay)
    requires t.Valid()
    ensures SecondsToTime(DateToSeconds(Some(t)).value) == t
  {
    var n := t.hours * 3600 + t.minutes * 60 + t.seconds;
    assert n / 3600 == t.hours;
    assert n % 3600 == t.minutes * 60 + t.seconds;
    assert (t.minutes * 60 + t.seconds) / 60 == t.minutes;
    assert n % 60 == t.seconds;
  }
}
