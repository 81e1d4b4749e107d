/** UTF-8 sizes of UTF-16 strings, and the close reason bounded to what a WebSocket close frame can carry
    (section 5.5 of RFC 6455: control frames hold at most 125 bytes, two of them the close code). */
module Utf8 {

  const MAX_CLOSE_REASON_BYTES: nat := 123

  newtype Unit = x: int | 0 <= x < 0x1_0000

  predicate High(u: Unit) {
    0xD800 <= u <= 0xDBFF
  }

  predicate Low(u: Unit) {
    0xDC00 <= u <= 0xDFFF
  }

  /** Code units of the first character: a surrogate pair, or one unit. */
  function CharUnits(s: seq<Unit>): (n: nat)
    requires s != []
    ensures 1 <= n <= |s|
  {
    if |s| >= 2 && High(s[0]) && Low(s[1]) then 2 else 1
  }

  /** Bytes of the first character; a lone surrogate is encoded as U+FFFD. */
  function CharBytes(s: seq<Unit>): (n: nat)
    requires s != []
    ensures CharUnits(s) <= n <= 4
  {
    if s[0] < 0x80 then 1 else if s[0] < 0x800 then 2 else if CharUnits(s) == 2 then 4 else 3
  }

  function Utf8Length(s: seq<Unit>): nat {
    if s == [] then 0 else CharBytes(s) + Utf8Length(s[CharUnits(s)..])
  }

  /** `k` is not inside a surrogate pair. */
  predicate Boundary(s: seq<Unit>, k: nat) {
    k <= |s| && (k == 0 || (k >= CharUnits(s) && Boundary(s[CharUnits(s)..], k - CharUnits(s))))
  }

  /** A string is never shorter in UTF-8 bytes than in UTF-16 units. */
  lemma {:induction false} AtLeastUnits(s: seq<Unit>)
    ensures Utf8Length(s) >= |s|
  {
    if s != [] { AtLeastUnits(s[CharUnits(s)..]); }
  }

  /** Sizes add up across a boundary. */
  lemma {:induction false} SplitAtBoundary(s: seq<Unit>, k: nat)
    requires Boundary(s, k)
    ensures Utf8Length(s) == Utf8Length(s[..k]) + Utf8Length(s[k..])
  {
    if k == 0 {
      assert s[..0] == [] && s[0..] == s;
    } else {
      var n := CharUnits(s);
      SplitAtBoundary(s[n..], k - n);
      assert s[n..][..k - n] == s[..k][n..] && s[n..][k - n..] == s[k..];
      FirstCharKept(s, k);
    }
  }

  /** The next boundary is one character further. */
  lemma {:induction false} NextBoundary(s: seq<Unit>, k: nat)
    requires Boundary(s, k) && k < |s|
    ensures Boundary(s, k + CharUnits(s[k..]))
  {
    if k == 0 {
      assert s[0..] == s;
    } else {
      var n := CharUnits(s);
      NextBoundary(s[n..], k - n);
      assert s[n..][k - n..] == s[k..];
    }
  }

  lemma FirstCharKept(s: seq<Unit>, k: nat)
    requires s != [] && CharUnits(s) <= k <= |s|
    ensures CharUnits(s[..k]) == CharUnits(s) && CharBytes(s[..k]) == CharBytes(s)
  {
  }

  /** The counting loop of utf8ByteLength. */
  method Utf8ByteLength(s: seq<Unit>) returns (bytes: nat)
    ensures bytes == Utf8Length(s)
  {
    bytes := 0;
    var i := 0;
    assert s[0..] == s;
    while i < |s|
      invariant 0 <= i <= |s| && bytes + Utf8Length(s[i..]) == Utf8Length(s)
    {
      var n := 1;
      if s[i] < 0x80 {
        bytes := bytes + 1;
      } else if s[i] < 0x800 {
        bytes := bytes + 2;
      } else if High(s[i]) && i + 1 < |s| && Low(s[i + 1]) {
        bytes := bytes + 4;
        n := 2;
      } else {
        bytes := bytes + 3;
      }
      assert CharUnits(s[i..]) == n && s[i..][n..] == s[i + n..];
      i := i + n;
    }
  }

  /** The longest whole-character prefix whose size fits. */
  predicate IsBounded(reason: seq<Unit>, end: nat) {
    && Boundary(reason, end) && Utf8Length(reason[..end]) <= MAX_CLOSE_REASON_BYTES
    && (end < |reason| ==> Utf8Length(reason[..end]) + CharBytes(reason[end..]) > MAX_CLOSE_REASON_BYTES)
  }

  /** One character further on from a boundary. */
  lemma NextPrefix(s: seq<Unit>, k: nat)
    requires Boundary(s, k) && k < |s|
    ensures var n := CharUnits(s[k..]);
      && Boundary(s, k + n) && Utf8Length(s[..k + n]) == Utf8Length(s[..k]) + CharBytes(s[k..])
      && Utf8Length(s[..k + n]) <= Utf8Length(s)
  {
    var rest := s[k..];
    var n := CharUnits(rest);
    SplitAtBoundary(s, k);
    NextBoundary(s, k);
    SplitAtBoundary(s, k + n);
    assert rest[n..] == s[k + n..];
  }

  method BoundedCloseReason(reason: seq<Unit>) returns (bounded: seq<Unit>)
    ensures bounded <= reason && IsBounded(reason, |bounded|)
    ensures bounded == reason <==> Utf8Length(reason) <= MAX_CLOSE_REASON_BYTES
  {
    var bytes, end := 0, 0;
    assert reason[..0] == [] && Utf8Length([]) == 0 && Boundary(reason, 0);
    hide Utf8Length, Boundary;
    while end < |reason|
      invariant 0 <= end <= |reason| && Boundary(reason, end)
      invariant bytes == Utf8Length(reason[..end]) <= MAX_CLOSE_REASON_BYTES
    {
      var rest := reason[end..];
      var n, size := CharUnits(rest), CharBytes(rest);
      NextPrefix(reason, end);
      if bytes + size > MAX_CLOSE_REASON_BYTES { return reason[..end]; }
      bytes, end := bytes + size, end + n;
    }
    assert reason[..end] == reason;
    bounded := reason;
  }

  /** Nothing longer fits: every longer whole-character prefix is over the limit. */
  lemma {:induction false} BoundedIsLongest(reason: seq<Unit>, end: nat, k: nat)
    requires IsBounded(reason, end) && Boundary(reason, k) && end < k
    ensures Utf8Length(reason[..k]) > MAX_CLOSE_REASON_BYTES
  {
    BoundariesOrdered(reason, end, k);
    SplitAtBoundary(reason[..k], end);
    assert reason[..k][..end] == reason[..end];
    var rest := reason[..k][end..];
    assert rest == reason[end..][..k - end];
    FirstCharKept(reason[end..], k - end);
  }

  /** Past a boundary, the next one leaves room for a whole character, and cutting later keeps it a boundary. */
  lemma {:induction false} BoundariesOrdered(s: seq<Unit>, j: nat, k: nat)
    requires Boundary(s, j) && Boundary(s, k) && j < k
    ensures j + CharUnits(s[j..]) <= k && Boundary(s[..k], j)
    ensures CharUnits(s[j..][..k - j]) == CharUnits(s[j..])
  {
    if j == 0 {
      assert s[0..] == s;
      FirstCharKept(s, k);
    } else {
      var n := CharUnits(s);
      BoundariesOrdered(s[n..], j - n, k - n);
      assert s[n..][j - n..] == s[j..] && s[n..][..k - n] == s[..k][n..];
      FirstCharKept(s, k);
    }
  }
}
