/** The events registered with the kernel for each descriptor, four bits each, sixteen to a word. */
module InterestTable {
  import opened WatchLists

  /** Bit position of the entry of `fd` in its word. */
  function Shift(fd: nat): bv7 { (fd % 16 * 4) as bv7 }

  function Nibble(w: bv64, s: bv7): Mask
    requires s <= 60
  { ((w >> s) & 15) as bv4 }

  lemma ShiftFits(fd: nat)
    ensures Shift(fd) <= 60 && Shift(fd) & 3 == 0 && Shift(fd) as int == fd % 16 * 4
  {
    ShiftOf(fd % 16);
  }

  lemma ShiftOf(k: nat)
    requires k < 16
    ensures var s := (k * 4) as bv7; s <= 60 && s & 3 == 0 && s as int == k * 4
  {
  }

  /** The registered mask of `fd`; words not yet allocated are zero. */
  function Entry(ctl: seq<bv64>, fd: nat): Mask {
    if fd / 16 < |ctl| then
      ShiftFits(fd);
      Nibble(ctl[fd / 16], Shift(fd))
    else 0
  }

  function Patch(w: bv64, s: bv7, d: Mask): bv64
    requires s <= 60
  { w ^ ((d as bv64) << s) }

  /** Flipping the difference of two masks at one position turns one into the other there. */
  lemma PatchedHere(w: bv64, s: bv7, mask: Mask)
    requires s <= 60 && s & 3 == 0
    ensures Nibble(Patch(w, s, Nibble(w, s) ^ mask), s) == mask
  {
  }

  /** It leaves the fifteen neighbours alone. */
  lemma PatchedElsewhere(w: bv64, s: bv7, t: bv7, d: Mask)
    requires s <= 60 && t <= 60 && s & 3 == 0 && t & 3 == 0 && s != t
    ensures Nibble(Patch(w, s, d), t) == Nibble(w, t)
  {
  }

  lemma ShiftTells(fd: nat, k: nat)
    ensures Shift(fd) == Shift(k) <==> fd % 16 == k % 16
  {
    ShiftFits(fd);
    ShiftFits(k);
  }

  function Zeros(n: nat): (z: seq<bv64>)
    ensures |z| == n && forall i | 0 <= i < n :: z[i] == 0
  { if n == 0 then [] else Zeros(n - 1) + [0] }

  /** The table made long enough for `fd`. */
  function Widened(ctl: seq<bv64>, fd: nat): seq<bv64> {
    if fd / 16 < |ctl| then ctl else ctl + Zeros(fd / 16 + 1 - |ctl|)
  }

  lemma WidenedSame(ctl: seq<bv64>, fd: nat, k: nat)
    ensures fd / 16 < |Widened(ctl, fd)| && Entry(Widened(ctl, fd), k) == Entry(ctl, k)
  {
    ShiftFits(k);
    ZeroNibble(Shift(k));
  }

  lemma ZeroNibble(s: bv7)
    requires s <= 60
    ensures Nibble(0, s) == 0
  {
  }

  function Recorded(ctl: seq<bv64>, fd: nat, mask: Mask): seq<bv64>
    requires fd / 16 < |ctl|
  { ShiftFits(fd); ctl[fd / 16 := Patch(ctl[fd / 16], Shift(fd), Entry(ctl, fd) ^ mask)] }

  /** The packed table behaves as a map from descriptor to mask. */
  lemma RecordedIsUpdate(ctl: seq<bv64>, fd: nat, mask: Mask, k: nat)
    requires fd / 16 < |ctl|
    ensures Entry(Recorded(ctl, fd, mask), k) == if k == fd then mask else Entry(ctl, k)
  {
    if k == fd {
      ShiftFits(fd);
      PatchedHere(ctl[fd / 16], Shift(fd), mask);
    } else {
      RecordedElsewhere(ctl, fd, mask, k);
    }
  }

  lemma RecordedElsewhere(ctl: seq<bv64>, fd: nat, mask: Mask, k: nat)
    requires fd / 16 < |ctl| && k != fd
    ensures Entry(Recorded(ctl, fd, mask), k) == Entry(ctl, k)
  {
    if k / 16 == fd / 16 {
      ShiftFits(fd);
      ShiftFits(k);
      ShiftTells(fd, k);
      PatchedElsewhere(ctl[fd / 16], Shift(fd), Shift(k), Entry(ctl, fd) ^ mask);
    }
  }

  // Counting

  function Entries(ctl: seq<bv64>): seq<Mask> { seq(|ctl| * 16, k requires 0 <= k => Entry(ctl, k)) }

  function Nonzero(m: seq<Mask>): nat {
    if m == [] then 0 else Nonzero(m[..|m| - 1]) + if m[|m| - 1] != 0 then 1 else 0
  }

  lemma {:induction false} NonzeroUpdate(m: seq<Mask>, k: nat, x: Mask)
    requires k < |m|
    ensures Nonzero(m[k := x]) + (if m[k] != 0 then 1 else 0) == Nonzero(m) + (if x != 0 then 1 else 0)
  {
    var n := |m| - 1;
    if k < n {
      NonzeroUpdate(m[..n], k, x);
      assert m[k := x][..n] == m[..n][k := x];
    } else {
      assert m[k := x][..n] == m[..n];
    }
  }

  lemma {:induction false} NonzeroPadded(m: seq<Mask>, long: seq<Mask>)
    requires |m| <= |long| && long[..|m|] == m && forall k | |m| <= k < |long| :: long[k] == 0
    ensures Nonzero(long) == Nonzero(m)
  {
    if |m| < |long| {
      var n := |long| - 1;
      assert long[..n][..|m|] == m;
      NonzeroPadded(m, long[..n]);
    } else {
      assert long == m;
    }
  }

  /** `nfdctl_` is the number of nonzero entries. */
  ghost predicate CtlInv(ctl: seq<bv64>, count: nat) { count == Nonzero(Entries(ctl)) }

  lemma WidenCounts(ctl: seq<bv64>, count: nat, fd: nat)
    requires CtlInv(ctl, count)
    ensures CtlInv(Widened(ctl, fd), count)
  {
    var m, long := Entries(ctl), Entries(Widened(ctl, fd));
    assert |ctl| <= |Widened(ctl, fd)|;
    forall k: nat | k < |long| ensures long[k] == (if k < |m| then m[k] else 0) {
      WidenedSame(ctl, fd, k);
    }
    assert long[..|m|] == m;
    NonzeroPadded(m, long);
  }

  lemma RecordedEntries(ctl: seq<bv64>, fd: nat, mask: Mask)
    requires fd / 16 < |ctl|
    ensures fd < |ctl| * 16
    ensures Entries(Recorded(ctl, fd, mask)) == Entries(ctl)[fd := mask]
  {
    var m := Entries(Recorded(ctl, fd, mask));
    forall k: nat | k < |m| ensures m[k] == Entries(ctl)[fd := mask][k] {
      RecordedIsUpdate(ctl, fd, mask, k);
    }
  }

  /** How `apply_fd_update` adjusts the count when mask `x` replaces mask `y`. */
  function Adjusted(count: nat, y: Mask, x: Mask): int {
    if y == 0 then count + 1 else if x == 0 then count - 1 else count
  }

  lemma AdjustedCounts(m: seq<Mask>, k: nat, x: Mask)
    requires k < |m| && m[k] != x
    ensures Adjusted(Nonzero(m), m[k], x) == Nonzero(m[k := x])
  {
    NonzeroUpdate(m, k, x);
  }

  /** Recording a different mask keeps the count exact. */
  lemma RecordCounts(ctl: seq<bv64>, count: nat, fd: nat, mask: Mask)
    requires CtlInv(ctl, count) && fd / 16 < |ctl| && mask != Entry(ctl, fd)
    ensures Adjusted(count, Entry(ctl, fd), mask) >= 0
    ensures CtlInv(Recorded(ctl, fd, mask), Adjusted(count, Entry(ctl, fd), mask))
  {
    RecordedEntries(ctl, fd, mask);
    EntriesAt(ctl, fd);
    AdjustedCounts(Entries(ctl), fd, mask);
  }

  lemma EntriesAt(ctl: seq<bv64>, fd: nat)
    requires fd < |ctl| * 16
    ensures Entries(ctl)[fd] == Entry(ctl, fd)
  {
  }
}
