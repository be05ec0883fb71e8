/**
 * Directory paging: `getdents` packs `Dirent64` records into the caller's buffer and remembers how far
 * it got, so that repeated calls with buffers of any size list the directory.
 */
module Dirents {
  import opened Basics

  newtype Byte = x: int | 0 <= x < 256
  type Name = seq<Byte>

  /** Offsets of the fields of a `Dirent64` and its 8-byte alignment. */
  const RECLEN_OFFSET: nat := 16
  const TYPE_OFFSET: nat := 18
  const NAME_OFFSET: nat := 19
  const U16_MAX: nat := 0xFFFF

  function AlignUp(n: nat): (r: nat)
    ensures n <= r < n + 8
  {
    if n % 8 == 0 then n else n - n % 8 + 8
  }

  lemma AlignShift(off: nat, n: nat)
    requires off % 8 == 0
    ensures AlignUp(off + n) == off + AlignUp(n)
  {}

  /** The space a name takes: header, bytes, terminator and padding. */
  function RecordLen(name: Name): (r: nat)
    ensures r > NAME_OFFSET + |name|
  {
    AlignUp(NAME_OFFSET + |name| + 1)
  }

  lemma RecordLenAligned(name: Name)
    ensures RecordLen(name) % 8 == 0 && RecordLen(name) >= 24
  {}

  // ---- Reading a buffer back, the way a C library does ----

  /** The bytes before the first zero, `None` if there is no zero. */
  function CString(s: seq<Byte>): Option<Name> {
    if s == [] then None
    else if s[0] == 0 then Some([])
    else
      var r := CString(s[1..]);
      if r.None? then None else Some([s[0]] + r.value)
  }

  function RecLen(b: seq<Byte>): nat
    requires |b| >= 24
  {
    b[RECLEN_OFFSET] as int + 256 * b[RECLEN_OFFSET + 1] as int
  }

  /** The length and the name of the first record, `None` if it is misaligned or out of bounds. */
  function FirstRecord(b: seq<Byte>): (r: Option<(nat, Name)>)
    ensures r.Some? ==> 0 < r.value.0 <= |b|
  {
    if |b| < 24 || RecLen(b) < 24 || RecLen(b) > |b| || RecLen(b) % 8 != 0 then None
    else
      var name := CString(b[NAME_OFFSET..RecLen(b)]);
      if name.None? then None else Some((RecLen(b), name.value))
  }

  /** Walks the records by their `d_reclen`. */
  function Walk(b: seq<Byte>): Option<seq<Name>>
    decreases |b|
  {
    if b == [] then Some([])
    else
      var first := FirstRecord(b);
      if first.None? then None
      else
        var rest := Walk(b[first.value.0..]);
        if rest.None? then None else Some([first.value.1] + rest.value)
  }

  /** What a reader of C strings sees of a name: the bytes before its first zero. */
  function Visible(name: Name): Name {
    if name == [] || name[0] == 0 then [] else [name[0]] + Visible(name[1..])
  }

  function AllVisible(names: seq<Name>): (r: seq<Name>)
    ensures |r| == |names| && forall i :: 0 <= i < |names| ==> r[i] == Visible(names[i])
  {
    seq(|names|, i requires 0 <= i < |names| => Visible(names[i]))
  }

  predicate ZeroFree(name: Name) {
    forall i :: 0 <= i < |name| ==> name[i] != 0
  }

  /** A name is seen as it is exactly if it has no zero byte. */
  lemma {:induction false} VisibleIsName(name: Name)
    ensures Visible(name) == name <==> ZeroFree(name)
  {
    if name != [] {
      VisibleIsName(name[1..]);
      assert name == [name[0]] + name[1..];
    }
  }

  // ---- The bytes of records ----

  /** The bytes of one record; the padding behind the terminator is not written. */
  ghost predicate IsRecord(r: seq<Byte>, name: Name) {
    && |r| == RecordLen(name) >= 24
    && r[0] == 1 && (forall i :: 1 <= i < RECLEN_OFFSET ==> r[i] == 0)
    && RecLen(r) == |r|
    && r[TYPE_OFFSET] == 0
    && r[NAME_OFFSET..NAME_OFFSET + |name|] == name
    && r[NAME_OFFSET + |name|] == 0
  }

  ghost predicate Encodes(b: seq<Byte>, names: seq<Name>)
    decreases |names|
  {
    if names == [] then b == []
    else
      var len := RecordLen(names[0]);
      len <= |b| && IsRecord(b[..len], names[0]) && Encodes(b[len..], names[1..])
  }

  lemma {:induction false} CStringOf(name: Name, s: seq<Byte>)
    requires |name| < |s| && s[..|name|] == name && s[|name|] == 0
    ensures CString(s) == Some(Visible(name))
  {
    if name != [] {
      assert s[0] == s[..|name|][0];
      assert s[1..][..|name| - 1] == name[1..];
      CStringOf(name[1..], s[1..]);
    }
  }

  /** One record decodes to what is visible of its name. */
  lemma RecordDecodes(r: seq<Byte>, name: Name)
    requires IsRecord(r, name)
    ensures CString(r[NAME_OFFSET..]) == Some(Visible(name))
  {
    assert r[NAME_OFFSET..][..|name|] == r[NAME_OFFSET..NAME_OFFSET + |name|];
    CStringOf(name, r[NAME_OFFSET..]);
  }

  lemma FirstRecordOf(b: seq<Byte>, r: seq<Byte>, name: Name)
    requires |r| <= |b| && b[..|r|] == r && IsRecord(r, name)
    ensures FirstRecord(b) == Some((RecordLen(name), Visible(name)))
  {
    RecordLenAligned(name);
    RecordDecodes(r, name);
    assert b[RECLEN_OFFSET] == b[..|r|][RECLEN_OFFSET] && b[RECLEN_OFFSET + 1] == b[..|r|][RECLEN_OFFSET + 1];
    assert RecLen(b) == RecLen(r);
    assert b[NAME_OFFSET..|r|] == b[..|r|][NAME_OFFSET..];
  }

  /** Walking encoded records yields their names, in order. */
  lemma {:induction false} WalkEncoded(b: seq<Byte>, names: seq<Name>)
    requires Encodes(b, names)
    ensures Walk(b) == Some(AllVisible(names))
    decreases |names|
  {
    if names != [] {
      var len := RecordLen(names[0]);
      FirstRecordOf(b, b[..len], names[0]);
      WalkEncoded(b[len..], names[1..]);
      assert AllVisible(names) == [Visible(names[0])] + AllVisible(names[1..]);
    }
  }

  lemma SumAligned(a: nat, b: nat)
    requires a % 8 == 0 && b % 8 == 0
    ensures (a + b) % 8 == 0
  {}

  /** Records are 8-aligned and none is empty. */
  lemma {:induction false} EncodedSize(b: seq<Byte>, names: seq<Name>)
    requires Encodes(b, names)
    ensures |b| % 8 == 0 && (b == [] <==> names == [])
    decreases |names|
  {
    if names != [] {
      var len := RecordLen(names[0]);
      EncodedSize(b[len..], names[1..]);
      RecordLenAligned(names[0]);
      SumAligned(len, |b[len..]|);
    }
  }

  lemma EncodesOne(r: seq<Byte>, name: Name)
    requires IsRecord(r, name)
    ensures Encodes(r, [name])
  {
    assert r[..|r|] == r && r[|r|..] == [] && [name][1..] == [];
  }

  lemma {:induction false} EncodesAppend(b: seq<Byte>, names: seq<Name>, r: seq<Byte>, name: Name)
    requires Encodes(b, names) && IsRecord(r, name)
    ensures Encodes(b + r, names + [name])
    decreases |names|
  {
    if names == [] {
      EncodesOne(r, name);
      assert b + r == r && names + [name] == [name];
    } else {
      var len := RecordLen(names[0]);
      EncodesAppend(b[len..], names[1..], r, name);
      EncodesCons(b, names, r, name);
    }
  }

  lemma EncodesCons(b: seq<Byte>, names: seq<Name>, r: seq<Byte>, name: Name)
    requires names != [] && RecordLen(names[0]) <= |b| && IsRecord(b[..RecordLen(names[0])], names[0])
    requires Encodes(b[RecordLen(names[0])..] + r, names[1..] + [name])
    ensures Encodes(b + r, names + [name])
  {
    var len := RecordLen(names[0]);
    assert (b + r)[..len] == b[..len];
    assert (b + r)[len..] == b[len..] + r;
    assert (names + [name])[1..] == names[1..] + [name] && (names + [name])[0] == names[0];
  }

  // ---- Which entries fit ----

  /** The first entry from `idx` on that does not fit behind `off` bytes. */
  function FirstUnfit(names: seq<Name>, idx: nat, off: nat, cap: nat): (r: nat)
    ensures idx <= r && (r <= |names| || r == idx)
    decreases |names| - idx
  {
    if idx >= |names| || off + RecordLen(names[idx]) > cap then idx
    else FirstUnfit(names, idx + 1, off + RecordLen(names[idx]), cap)
  }

  function Slice(names: seq<Name>, lo: nat, hi: nat): seq<Name> {
    if lo <= hi <= |names| then names[lo..hi] else []
  }

  lemma SliceNext(names: seq<Name>, lo: nat, hi: nat)
    requires lo <= hi < |names|
    ensures Slice(names, lo, hi + 1) == Slice(names, lo, hi) + [names[hi]]
  {}

  /** The records of entries `lo` to `hi - 1` are not too long for their length field. */
  predicate LengthsFit(names: seq<Name>, lo: nat, hi: nat) {
    forall i :: lo <= i < hi && i < |names| ==> RecordLen(names[i]) <= U16_MAX
  }

  // ---- Writing into a buffer ----

  /** `after` is `before` with `s` written at `at`. */
  ghost predicate Written(before: seq<Byte>, after: seq<Byte>, at: nat, s: seq<Byte>) {
    && |after| == |before| && at + |s| <= |before|
    && forall i :: 0 <= i < |before| ==> after[i] == if at <= i < at + |s| then s[i - at] else before[i]
  }

  lemma WrittenBehind(orig: seq<Byte>, cur: seq<Byte>, after: seq<Byte>, s: seq<Byte>, t: seq<Byte>)
    requires Written(orig, cur, 0, s) && Written(cur, after, |s|, t)
    ensures Written(orig, after, 0, s + t)
  {}

  /** Two adjacent pieces, seen as one piece of length `n` with whatever lies behind them. */
  lemma WrittenTwice(a: seq<Byte>, b: seq<Byte>, c: seq<Byte>, at: nat, s: seq<Byte>, t: seq<Byte>, n: nat)
    requires Written(a, b, at, s) && Written(b, c, at + |s|, t) && |s| + |t| <= n && at + n <= |a|
    ensures Written(a, c, at, c[at..at + n])
    ensures forall j :: 0 <= j < |s| ==> c[at..at + n][j] == s[j]
    ensures forall j :: 0 <= j < |t| ==> c[at..at + n][|s| + j] == t[j]
  {}

  /** The search for the first entry that does not fit, begun at `start`, has come to `idx` and `off` bytes. */
  ghost predicate Searching(names: seq<Name>, start: nat, idx: nat, off: nat, cap: nat) {
    && start <= idx && (idx <= |names| || idx == start) && off <= cap
    && FirstUnfit(names, start, 0, cap) == FirstUnfit(names, idx, off, cap)
  }

  /** Entries `start` to `idx - 1` are encoded in `done`. */
  ghost predicate Packed(names: seq<Name>, start: nat, idx: nat, done: seq<Byte>) {
    Encodes(done, Slice(names, start, idx))
  }

  /** They are at the front of buffer `cur`, which is otherwise still `orig`. */
  ghost predicate Paged(names: seq<Name>, start: nat, idx: nat, done: seq<Byte>, orig: seq<Byte>, cur: seq<Byte>) {
    && Searching(names, start, idx, |done|, |orig|)
    && Packed(names, start, idx, done)
    && Written(orig, cur, 0, done)
  }

  lemma PackedNext(names: seq<Name>, start: nat, idx: nat, done: seq<Byte>, rec: seq<Byte>)
    requires start <= idx < |names| && Packed(names, start, idx, done) && IsRecord(rec, names[idx])
    ensures Packed(names, start, idx + 1, done + rec)
  {
    EncodesAppend(done, Slice(names, start, idx), rec, names[idx]);
    SliceNext(names, start, idx);
  }

  lemma SearchNext(names: seq<Name>, start: nat, idx: nat, off: nat, cap: nat)
    requires Searching(names, start, idx, off, cap) && idx < |names| && off + RecordLen(names[idx]) <= cap
    ensures Searching(names, start, idx + 1, off + RecordLen(names[idx]), cap)
  {}

  lemma PagedStart(names: seq<Name>, idx: nat, orig: seq<Byte>)
    ensures Paged(names, idx, idx, [], orig, orig)
  {
    assert Slice(names, idx, idx) == [];
  }

  /** The page walks back to the entries passed, and what lies behind it is untouched. */
  lemma PagedEnd(names: seq<Name>, start: nat, idx: nat, done: seq<Byte>, orig: seq<Byte>, cur: seq<Byte>)
    requires Paged(names, start, idx, done, orig, cur)
    ensures |done| <= |cur| == |orig| && cur[|done|..] == orig[|done|..]
    ensures Walk(cur[..|done|]) == Some(AllVisible(Slice(names, start, idx)))
    ensures |done| % 8 == 0 && (done == [] <==> idx == start)
  {
    assert cur[..|done|] == done && cur[|done|..] == orig[|done|..];
    WalkEncoded(done, Slice(names, start, idx));
    EncodedSize(done, Slice(names, start, idx));
  }

  /** The result of a call; `Panics` where a record is too long for its 16-bit length. */
  datatype PageResult = Bytes(n: nat) | TooSmall | Panics

  /** Why the loop over the entries ended. */
  datatype Stop = AtEnd | Full | TooLong

  predicate Stopped(stop: Stop, names: seq<Name>, idx: nat, off: nat, cap: nat) {
    if idx >= |names| then stop == AtEnd
    else if off + RecordLen(names[idx]) > cap then stop == Full
    else stop == TooLong && RecordLen(names[idx]) > U16_MAX
  }

  class MemDirectoryInterface {
    /** The keys of the directory, in key order. */
    const names: seq<Name>
    var readIdx: nat

    constructor (names: seq<Name>)
      ensures this.names == names && readIdx == 0
    {
      this.names := names;
      readIdx := 0;
    }

    /** Copies `s` into the buffer at `at`. */
    static method Copy(buf: array<Byte>, at: nat, s: seq<Byte>)
      requires at + |s| <= buf.Length
      modifies buf
      ensures Written(old(buf[..]), buf[..], at, s)
    {
      for k := 0 to |s|
        invariant forall i :: 0 <= i < buf.Length ==> buf[i] == if at <= i < at + k then s[i - at] else old(buf[i])
      {
        buf[at + k] := s[k];
      }
    }

    /** Inode 1, offset 0, the record length in little-endian order, and type unknown. */
    static function HeaderBytes(len: nat): (h: seq<Byte>)
      requires len <= U16_MAX
      ensures |h| == NAME_OFFSET
    {
      [1, 0, 0, 0, 0, 0, 0, 0, 0, 0, 0, 0, 0, 0, 0, 0, (len % 256) as Byte, (len / 256) as Byte, 0]
    }

    static lemma RecordShape(rec: seq<Byte>, name: Name)
      requires |rec| == RecordLen(name) <= U16_MAX
      requires forall j :: 0 <= j < NAME_OFFSET ==> rec[j] == HeaderBytes(RecordLen(name))[j]
      requires forall j :: 0 <= j < |name| + 1 ==> rec[NAME_OFFSET + j] == (name + [0])[j]
      ensures IsRecord(rec, name)
    {
      RecordLenAligned(name);
      assert forall j :: 0 <= j < |name| ==> (name + [0])[j] == name[j];
      assert rec[NAME_OFFSET..NAME_OFFSET + |name|] == name;
      assert rec[NAME_OFFSET + |name|] == (name + [0])[|name|];
    }

    /** Writes the record of `name` at `off`, leaving all other bytes alone. */
    static method WriteRecord(buf: array<Byte>, off: nat, name: Name) returns (ghost rec: seq<Byte>)
      requires off + RecordLen(name) <= buf.Length && RecordLen(name) <= U16_MAX
      modifies buf
      ensures IsRecord(rec, name) && Written(old(buf[..]), buf[..], off, rec)
    {
      ghost var a := buf[..];
      var header := HeaderBytes(RecordLen(name));
      Copy(buf, off, header);
      ghost var b := buf[..];
      Copy(buf, off + NAME_OFFSET, name + [0]);
      ghost var c := buf[..];
      WrittenTwice(a, b, c, off, header, name + [0], RecordLen(name));
      rec := c[off..off + RecordLen(name)];
      RecordShape(rec, name);
    }

    /** Puts the next entry behind the `off` bytes written so far. */
    method PutNext(buf: array<Byte>, off: nat, ghost start: nat, ghost done: seq<Byte>, ghost orig: seq<Byte>)
      returns (ghost done': seq<Byte>)
      requires readIdx < |names| && RecordLen(names[readIdx]) <= U16_MAX
      requires off == |done| && off + RecordLen(names[readIdx]) <= buf.Length
      requires Paged(names, start, readIdx, done, orig, buf[..])
      modifies this`readIdx, buf
      ensures readIdx == old(readIdx) + 1 && |done'| == off + RecordLen(names[old(readIdx)])
      ensures Paged(names, start, readIdx, done', orig, buf[..])
    {
      ghost var cur := buf[..];
      ghost var rec := WriteRecord(buf, off, names[readIdx]);
      PackedNext(names, start, readIdx, done, rec);
      SearchNext(names, start, readIdx, off, |orig|);
      WrittenBehind(orig, cur, buf[..], done, rec);
      readIdx := readIdx + 1;
      done' := done + rec;
    }

    /** Where the record behind that of `name` would start. */
    static method NextDirent(off: nat, name: Name) returns (next: nat)
      requires off % 8 == 0
      ensures next == off + RecordLen(name) && next % 8 == 0
    {
      next := AlignUp(off + (NAME_OFFSET + |name| + 1));
      AlignShift(off, NAME_OFFSET + |name| + 1);
      RecordLenAligned(name);
      SumAligned(off, RecordLen(name));
    }

    /** One round of the loop over the entries. */
    method PutIfFits(buf: array<Byte>, off: nat, ghost start: nat, ghost done: seq<Byte>, ghost orig: seq<Byte>)
      returns (stop: Option<Stop>, off': nat, ghost done': seq<Byte>)
      requires readIdx < |names| && off == |done| && off % 8 == 0
      requires Paged(names, start, readIdx, done, orig, buf[..])
      modifies this`readIdx, buf
      ensures Paged(names, start, readIdx, done', orig, buf[..]) && off' == |done'| && off' % 8 == 0
      ensures stop.Some? ==> readIdx == old(readIdx) && Stopped(stop.value, names, readIdx, off', buf.Length)
      ensures stop.None? ==> readIdx == old(readIdx) + 1 && RecordLen(names[old(readIdx)]) <= U16_MAX
    {
      var nextDirent := NextDirent(off, names[readIdx]);
      if nextDirent > buf.Length { return Some(Full), off, done; }
      if RecordLen(names[readIdx]) > U16_MAX { return Some(TooLong), off, done; }
      done' := PutNext(buf, off, start, done, orig);
      stop, off' := None, nextDirent;
    }

    /** The loop over the entries: `ret` bytes are filled when it stops. */
    method Fill(buf: array<Byte>) returns (ret: nat, stop: Stop, ghost done: seq<Byte>)
      modifies this`readIdx, buf
      ensures Paged(names, old(readIdx), readIdx, done, old(buf[..]), buf[..]) && ret == |done|
      ensures LengthsFit(names, old(readIdx), readIdx) && Stopped(stop, names, readIdx, ret, buf.Length)
    {
      ret := 0;
      ghost var orig := buf[..];
      done := [];
      PagedStart(names, readIdx, orig);
      while readIdx < |names|
        invariant Paged(names, old(readIdx), readIdx, done, orig, buf[..])
        invariant ret == |done| && ret % 8 == 0
        invariant LengthsFit(names, old(readIdx), readIdx)
        decreases |names| - readIdx
      {
        var end: Option<Stop>;
        end, ret, done := PutIfFits(buf, ret, old(readIdx), done, orig);
        if end.Some? { return ret, end.value, done; }
      }
      stop := AtEnd;
    }

    /**
     * Lists as many entries as fit: the next one would not. The bytes returned walk back to exactly the entries
     * passed by the cursor; nothing changes when not even one entry fits; zero bytes mean that no entry is left.
     */
    method GetDents(buf: array<Byte>) returns (r: PageResult)
      modifies this`readIdx, buf
      ensures var next := FirstUnfit(names, old(readIdx), 0, buf.Length);
        if LengthsFit(names, old(readIdx), next) then !r.Panics? && readIdx == next else r.Panics?
      ensures !r.Panics? ==> AnswersFor(r, names, old(readIdx), buf.Length)
      ensures r.TooSmall? ==> readIdx == old(readIdx) && buf[..] == old(buf[..])
      ensures r.Bytes? ==> r.n <= buf.Length && r.n % 8 == 0 && buf[..][r.n..] == old(buf[..])[r.n..]
      ensures r.Bytes? ==> Walk(buf[..][..r.n]) == Some(AllVisible(Slice(names, old(readIdx), readIdx)))
      ensures r.Bytes? && readIdx < |names| ==> r.n + RecordLen(names[readIdx]) > buf.Length
    {
      ghost var done;
      var ret, stop;
      ret, stop, done := Fill(buf);
      ghost var next := FirstUnfit(names, old(readIdx), 0, buf.Length);
      assert next == FirstUnfit(names, readIdx, ret, buf.Length);
      PagedEnd(names, old(readIdx), readIdx, done, old(buf[..]), buf[..]);
      if stop == TooLong {
        assert next >= readIdx + 1;
        return Panics;
      }
      assert next == readIdx;
      if stop == Full && ret == 0 {
        assert buf[..] == old(buf[..]);
        return TooSmall;
      }
      return Bytes(ret);
    }

    /** One call, and what a C library reads from its page. */
    method ReadPage(buf: array<Byte>) returns (page: seq<Name>, r: PageResult)
      modifies this`readIdx, buf
      ensures var next := FirstUnfit(names, old(readIdx), 0, buf.Length);
        if LengthsFit(names, old(readIdx), next) then !r.Panics? && readIdx == next else r.Panics?
      ensures !r.Panics? ==> AnswersFor(r, names, old(readIdx), buf.Length)
      ensures !r.Panics? ==> page == AllVisible(Slice(names, old(readIdx), readIdx))
    {
      r := GetDents(buf);
      page := [];
      if r.Bytes? {
        var decoded := Walk(buf[..][..r.n]);
        page := decoded.value;
      } else {
        assert Slice(names, readIdx, readIdx) == [];
      }
    }

    /**
     * Lists a directory with any buffers, the way a C library does: walks the bytes of each page and goes on
     * with the next buffer, also after one that was too small. The answer of every call is kept.
     */
    method ListWith(bufs: seq<array<Byte>>) returns (listing: seq<Name>, answers: seq<PageResult>)
      modifies this`readIdx, bufs
      ensures var end := CursorAfter(names, old(readIdx), Caps(bufs));
        if LengthsFit(names, old(readIdx), end)
        then |answers| == |bufs| && readIdx == end && Listed(names, old(readIdx), Caps(bufs), listing, answers)
        else answers != [] && answers[|answers| - 1].Panics?
    {
      listing, answers := [], [];
      ListedNothing(names, readIdx, Caps(bufs)[..0]);
      for j := 0 to |bufs|
        invariant |answers| == j && readIdx == CursorAfter(names, old(readIdx), Caps(bufs)[..j])
        invariant LengthsFit(names, old(readIdx), readIdx)
        invariant Listed(names, old(readIdx), Caps(bufs)[..j], listing, answers)
      {
        var page, r := ReadPage(bufs[j]);
        CursorNext(names, old(readIdx), Caps(bufs), j);
        answers := answers + [r];
        if r.Panics? {
          CursorBounds(names, old(readIdx), Caps(bufs), j);
          return;
        }
        ListedNext(names, old(readIdx), Caps(bufs), j, listing, answers[..j], page, r);
        assert answers[..j] + [r] == answers;
        listing := listing + page;
      }
      assert Caps(bufs)[..|bufs|] == Caps(bufs);
    }

    /** `lseek`: any position is taken with `SEEK_SET`; otherwise only offset 0 is accepted. */
    method Lseek(offset: int, absolute: bool) returns (ok: bool)
      requires -0x8000_0000_0000_0000 <= offset < 0x8000_0000_0000_0000
      modifies this`readIdx
      ensures ok <==> absolute || offset == 0
      ensures readIdx == if !ok then old(readIdx) else if offset >= 0 then offset else U64_MAX + 1 + offset
    {
      if !absolute && offset != 0 { return false; }
      readIdx := if offset >= 0 then offset else U64_MAX + 1 + offset;
      ok := true;
    }
  }

  // ---- Any sequence of calls ----

  function Caps(bufs: seq<array<Byte>>): (c: seq<nat>)
    ensures |c| == |bufs| && forall i :: 0 <= i < |bufs| ==> c[i] == bufs[i].Length
  {
    seq(|bufs|, i requires 0 <= i < |bufs| => bufs[i].Length)
  }

  /** The cursor after calls with buffers of the given sizes. */
  function CursorAfter(names: seq<Name>, idx: nat, caps: seq<nat>): (r: nat)
    ensures idx <= r && (r <= |names| || r == idx)
    decreases |caps|
  {
    if caps == [] then idx
    else FirstUnfit(names, CursorAfter(names, idx, caps[..|caps| - 1]), 0, caps[|caps| - 1])
  }

  /** 0 bytes exactly at the end, too small exactly if the next entry does not fit. */
  predicate AnswersFor(r: PageResult, names: seq<Name>, cursor: nat, cap: nat) {
    && (r == Bytes(0) <==> cursor >= |names|)
    && (r.TooSmall? <==> cursor < |names| && RecordLen(names[cursor]) > cap)
  }

  /** The names read from the pages are those the cursor passed, and every call answered rightly. */
  ghost predicate Listed(names: seq<Name>, idx: nat, caps: seq<nat>, listing: seq<Name>, answers: seq<PageResult>) {
    && |answers| == |caps|
    && listing == AllVisible(Slice(names, idx, CursorAfter(names, idx, caps)))
    && forall i :: 0 <= i < |caps| ==> AnswersFor(answers[i], names, CursorAfter(names, idx, caps[..i]), caps[i])
  }

  lemma CursorNext(names: seq<Name>, idx: nat, caps: seq<nat>, j: nat)
    requires j < |caps|
    ensures CursorAfter(names, idx, caps[..j + 1]) == FirstUnfit(names, CursorAfter(names, idx, caps[..j]), 0, caps[j])
  {
    assert caps[..j + 1][..j] == caps[..j];
  }

  /** The cursor never goes back. */
  lemma {:induction false} CursorBounds(names: seq<Name>, idx: nat, caps: seq<nat>, j: nat)
    requires j < |caps|
    ensures CursorAfter(names, idx, caps[..j + 1]) <= CursorAfter(names, idx, caps)
    decreases |caps|
  {
    if j + 1 == |caps| {
      assert caps[..j + 1] == caps;
    } else {
      var shorter := caps[..|caps| - 1];
      assert shorter[..j + 1] == caps[..j + 1];
      CursorBounds(names, idx, shorter, j);
    }
  }

  lemma JoinSlices(names: seq<Name>, a: nat, b: nat, c: nat)
    requires a <= b <= c && (c <= |names| || a == c)
    ensures AllVisible(Slice(names, a, b)) + AllVisible(Slice(names, b, c)) == AllVisible(Slice(names, a, c))
  {
    assert Slice(names, a, b) + Slice(names, b, c) == Slice(names, a, c);
  }

  lemma ListedNothing(names: seq<Name>, idx: nat, caps: seq<nat>)
    requires caps == []
    ensures Listed(names, idx, caps, [], [])
  {
    assert Slice(names, idx, idx) == [];
  }

  lemma ListedNext(names: seq<Name>, idx: nat, caps: seq<nat>, j: nat, listing: seq<Name>, answers: seq<PageResult>,
                   page: seq<Name>, r: PageResult)
    requires j < |caps| && Listed(names, idx, caps[..j], listing, answers)
    requires var cursor := CursorAfter(names, idx, caps[..j]);
      AnswersFor(r, names, cursor, caps[j]) && page == AllVisible(Slice(names, cursor, CursorAfter(names, idx, caps[..j + 1])))
    ensures Listed(names, idx, caps[..j + 1], listing + page, answers + [r])
  {
    CursorNext(names, idx, caps, j);
    JoinSlices(names, idx, CursorAfter(names, idx, caps[..j]), CursorAfter(names, idx, caps[..j + 1]));
    var longer := caps[..j + 1];
    forall i | 0 <= i < |longer|
      ensures AnswersFor((answers + [r])[i], names, CursorAfter(names, idx, longer[..i]), longer[i])
    {
      assert longer[..i] == caps[..i] && (i < j ==> caps[..j][..i] == caps[..i]);
    }
  }

  /** Buffers that each hold any record, as many as there are entries left, reach the end. */
  lemma {:induction false} BuffersSuffice(names: seq<Name>, idx: nat, caps: seq<nat>)
    requires idx <= |names| && forall i, k :: 0 <= i < |names| && 0 <= k < |caps| ==> RecordLen(names[i]) <= caps[k]
    ensures CursorAfter(names, idx, caps) >= if idx + |caps| <= |names| then idx + |caps| else |names|
    decreases |caps|
  {
    if caps != [] { BuffersSuffice(names, idx, caps[..|caps| - 1]); }
  }

  /** A directory of C strings, listed from the start with sufficient buffers: every name, once, in key order. */
  method ListAll(dir: MemDirectoryInterface, bufs: seq<array<Byte>>) returns (listing: seq<Name>)
    requires |bufs| >= |dir.names| && dir.readIdx == 0
    requires forall i, k :: 0 <= i < |dir.names| && 0 <= k < |bufs| ==> RecordLen(dir.names[i]) <= bufs[k].Length
    requires forall i :: 0 <= i < |dir.names| ==> RecordLen(dir.names[i]) <= U16_MAX && ZeroFree(dir.names[i])
    modifies dir`readIdx, bufs
    ensures listing == dir.names && dir.readIdx == |dir.names|
  {
    BuffersSuffice(dir.names, 0, Caps(bufs));
    var answers;
    listing, answers := dir.ListWith(bufs);
    forall i | 0 <= i < |dir.names| ensures Visible(dir.names[i]) == dir.names[i] { VisibleIsName(dir.names[i]); }
    assert Slice(dir.names, 0, |dir.names|) == dir.names;
  }
}
