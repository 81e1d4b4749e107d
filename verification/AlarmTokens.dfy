/** The alarm row's token: a UUID while the alarm is live, `delete:<uuid>:<token>`
    while a delete of that alarm is in flight (a tombstone). */
module AlarmTokens {

  const FENCE_PREFIX := "delete:"

  /** A token as `crypto.randomUUID()` produces it, as far as the protocol cares. */
  predicate IsUuid(u: string) {
    u != "" && ':' !in u
  }

  predicate IsDeleteFence(token: string) {
    FENCE_PREFIX <= token
  }

  /** `String.prototype.indexOf` for one character: the least index at or after `from`, or -1. */
  function IndexOf(s: string, c: char, from: nat): (k: int)
    requires from <= |s|
    ensures k == -1 || from <= k < |s|
    ensures forall i :: from <= i < (if k < 0 then |s| else k) ==> s[i] != c
    ensures k >= 0 ==> s[k] == c
    decreases |s| - from
  {
    if from == |s| then -1
    else if s[from] == c then from
    else IndexOf(s, c, from + 1)
  }

  /** The alarm a token stands for: a live token stands for itself, a tombstone for what it deletes. */
  function Lineage(token: string): string {
    if !IsDeleteFence(token) then token
    else
      var separator := IndexOf(token, ':', |FENCE_PREFIX|);
      if separator < 0 || token[separator + 1..] == "" then token
      else token[separator + 1..]
  }

  function DeleteFence(uuid: string, token: string): string {
    FENCE_PREFIX + uuid + ":" + token
  }

  lemma FenceLayout(uuid: string, token: string)
    ensures var f, n := DeleteFence(uuid, token), |FENCE_PREFIX|;
      && IsDeleteFence(f)
      && |f| == n + |uuid| + 1 + |token|
      && (forall i :: 0 <= i < |uuid| ==> f[n + i] == uuid[i])
      && f[n + |uuid|] == ':'
      && f[n + |uuid| + 1..] == token
  {
    assert DeleteFence(uuid, token)[..|FENCE_PREFIX|] == FENCE_PREFIX;
  }

  /** The first colon after the prefix ends the fence's id, unless the id holds one itself. */
  lemma FenceSeparator(uuid: string, token: string)
    ensures IsDeleteFence(DeleteFence(uuid, token))
    ensures var n := |FENCE_PREFIX|;
      var k := IndexOf(DeleteFence(uuid, token), ':', n);
      n <= k <= n + |uuid| && (':' in uuid <==> k < n + |uuid|)
  {
    FenceLayout(uuid, token);
    var f, n := DeleteFence(uuid, token), |FENCE_PREFIX|;
    var k := IndexOf(f, ':', n);
    if ':' in uuid {
      var j :| 0 <= j < |uuid| && uuid[j] == ':';
      assert f[n + j] == ':';
    }
    assert k < n + |uuid| ==> uuid[k - n] == ':';
  }

  /** Undoing a fence gives back exactly the fenced token, precisely when the fence was built
      from a colon-free id and a non-empty token. */
  lemma LineageUndoesFence(uuid: string, token: string)
    ensures IsDeleteFence(DeleteFence(uuid, token))
    ensures Lineage(DeleteFence(uuid, token)) == token <==> ':' !in uuid && token != ""
  {
    FenceLayout(uuid, token);
    FenceSeparator(uuid, token);
    var f := DeleteFence(uuid, token);
    var k := IndexOf(f, ':', |FENCE_PREFIX|);
    assert |f[k + 1..]| == |f| - k - 1;
  }

  lemma UuidIsNotFence(u: string)
    requires IsUuid(u)
    ensures !IsDeleteFence(u) && Lineage(u) == u
  {
    assert FENCE_PREFIX[6] == ':';
    assert |u| > 6 ==> u[6] in u;
  }

  /** Fences do not nest: fencing the lineage of a fence replaces the fence, it does not wrap it. */
  lemma FencesDoNotNest(u1: string, u2: string, token: string)
    requires IsUuid(u1) && IsUuid(u2) && IsUuid(token)
    ensures DeleteFence(u2, Lineage(DeleteFence(u1, token))) == DeleteFence(u2, token)
    ensures Lineage(DeleteFence(u2, Lineage(DeleteFence(u1, token)))) == token
    ensures Lineage(token) == token
  {
    LineageUndoesFence(u1, token);
    LineageUndoesFence(u2, token);
    UuidIsNotFence(token);
  }

  /** Distinct deletes write distinct fences. */
  lemma FenceInjective(u1: string, t1: string, u2: string, t2: string)
    requires IsUuid(u1) && IsUuid(u2)
    requires DeleteFence(u1, t1) == DeleteFence(u2, t2)
    ensures u1 == u2 && t1 == t2
  {
    hide DeleteFence, IsDeleteFence;
    FenceSeparator(u1, t1);
    FenceSeparator(u2, t2);
    FenceLayout(u1, t1);
    FenceLayout(u2, t2);
    var f, n := DeleteFence(u1, t1), |FENCE_PREFIX|;
    assert forall i :: 0 <= i < |u1| ==> u1[i] == f[n + i] && f[n + i] == u2[i];
  }
}
