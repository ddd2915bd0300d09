/** The kernel's own `memcpy`, which copies words where it can. */
module Memcpy {
  import opened MachineInts

  const WORD: nat := 8

  /** Memory as one array of bytes; an index is an address. A word is eight bytes, and may be
      read or written only where the address is a multiple of eight. */
  method LoadWord(mem: array<Byte>, a: nat) returns (w: seq<Byte>)
    requires a % WORD == 0 && a + WORD <= mem.Length
    ensures w == mem[a..a + WORD]
  {
    w := mem[a..a + WORD];
  }

  method StoreWord(mem: array<Byte>, a: nat, w: seq<Byte>)
    requires a % WORD == 0 && a + WORD <= mem.Length && |w| == WORD
    modifies mem
    ensures mem[..] == old(mem[..a]) + w + old(mem[a + WORD..])
  {
    forall k | 0 <= k < WORD {
      mem[a + k] := w[k];
    }
  }

  method CopyByte(mem: array<Byte>, dest: nat, src: nat)
    requires dest < mem.Length && src < mem.Length
    modifies mem
    ensures mem[..] == old(mem[..])[..dest] + old(mem[..])[src..src + 1] + old(mem[..])[dest + 1..]
  {
    mem[dest] := mem[src];
  }

  method CopyWord(mem: array<Byte>, dest: nat, src: nat)
    requires dest % WORD == 0 && src % WORD == 0 && dest + WORD <= mem.Length && src + WORD <= mem.Length
    modifies mem
    ensures mem[..] == old(mem[..])[..dest] + old(mem[..])[src..src + WORD] + old(mem[..])[dest + WORD..]
  {
    ghost var s := mem[..];
    var w := LoadWord(mem, src);
    StoreWord(mem, dest, w);
    assert w == s[src..src + WORD];
  }

  ghost predicate Disjoint(dest: nat, src: nat, n: nat) {
    dest + n <= src || src + n <= dest
  }

  /** What copying byte by byte would leave. */
  function Copied(s: seq<Byte>, dest: nat, src: nat, n: nat): (r: seq<Byte>)
    requires dest + n <= |s| && src + n <= |s|
    ensures |r| == |s|
  {
    s[..dest] + s[src..src + n] + s[dest + n..]
  }

  /** Each copied byte is the source's, and every byte outside the destination is as it was. */
  lemma {:induction false} CopiedBytes(s: seq<Byte>, dest: nat, src: nat, n: nat)
    requires dest + n <= |s| && src + n <= |s|
    ensures forall a | 0 <= a < |s| ::
      Copied(s, dest, src, n)[a] == if dest <= a < dest + n then s[src + (a - dest)] else s[a]
  {
  }

  lemma {:induction false} CopiedNothing(s: seq<Byte>, dest: nat, src: nat)
    requires dest <= |s| && src <= |s|
    ensures Copied(s, dest, src, 0) == s
  {
  }

  /** Copying `m` more bytes where `k` have been copied. */
  lemma {:induction false} CopiedMore(s: seq<Byte>, dest: nat, src: nat, k: nat, m: nat)
    requires dest + k + m <= |s| && src + k + m <= |s| && Disjoint(dest, src, k + m)
    ensures var t := Copied(s, dest, src, k);
      && t[src + k..src + k + m] == s[src + k..src + k + m]
      && t[..dest + k] + t[src + k..src + k + m] + t[dest + k + m..] == Copied(s, dest, src, k + m)
  {
    var t := Copied(s, dest, src, k);
    CopiedBytes(s, dest, src, k);
    CopiedBytes(s, dest, src, k + m);
    var added := t[src + k..src + k + m];
    assert added == s[src + k..src + k + m];
    var u := t[..dest + k] + added + t[dest + k + m..];
    hide Copied;
    assert forall a | 0 <= a < |s| :: u[a] == Copied(s, dest, src, k + m)[a];
  }

  /** The byte loop. */
  method CopyBytes(mem: array<Byte>, dest: nat, src: nat, n: nat)
    requires dest + n <= mem.Length && src + n <= mem.Length && Disjoint(dest, src, n)
    modifies mem
    ensures mem[..] == Copied(old(mem[..]), dest, src, n)
  {
    hide Copied;
    ghost var s := mem[..];
    var k := 0;
    CopiedNothing(s, dest, src);
    while k < n
      invariant 0 <= k <= n && mem[..] == Copied(s, dest, src, k)
    {
      CopiedMore(s, dest, src, k, 1);
      CopyByte(mem, dest + k, src + k);
      k := k + 1;
    }
  }

  lemma {:induction false} StillAligned(a: nat, k: nat)
    requires a % WORD == 0 && k % WORD == 0
    ensures (a + k) % WORD == 0
  {
  }

  /** The word loop: as many whole words as fit. */
  method CopyWords(mem: array<Byte>, dest: nat, src: nat, n: nat) returns (done: nat)
    requires dest + n <= mem.Length && src + n <= mem.Length && Disjoint(dest, src, n)
    requires dest % WORD == 0 && src % WORD == 0
    modifies mem
    ensures done <= n < done + WORD
    ensures mem[..] == Copied(old(mem[..]), dest, src, done)
  {
    hide Copied;
    ghost var s := mem[..];
    done := 0;
    CopiedNothing(s, dest, src);
    while n - done >= WORD
      invariant done <= n && done % WORD == 0 && mem[..] == Copied(s, dest, src, done)
    {
      CopiedMore(s, dest, src, done, WORD);
      StillAligned(dest, done);
      StillAligned(src, done);
      StillAligned(WORD, done);
      CopyWord(mem, dest + done, src + done);
      done := done + WORD;
    }
  }

  /** For regions that do not overlap (as `__restrict__` promises), of any length and
      alignment, the result is that of copying byte by byte. */
  method Memcpy(mem: array<Byte>, dest: nat, src: nat, n: nat)
    requires dest + n <= mem.Length && src + n <= mem.Length && Disjoint(dest, src, n)
    modifies mem
    ensures mem[..] == Copied(old(mem[..]), dest, src, n)
  {
    hide Copied;
    ghost var s := mem[..];
    var destMod, srcMod := dest % WORD, src % WORD;
    if n < WORD || ((destMod != 0 || srcMod != 0) && destMod != srcMod) {
      CopyBytes(mem, dest, src, n);
      return;
    }
    var head := if destMod != 0 then WORD - destMod else 0;
    CopyBytes(mem, dest, src, head);
    ghost var t := mem[..];
    var done := CopyWords(mem, dest + head, src + head, n - head);
    Joined(s, dest, src, head, done);
    CopyBytes(mem, dest + head + done, src + head + done, n - head - done);
    Joined(s, dest, src, head + done, n - head - done);
  }

  lemma {:induction false} Joined(s: seq<Byte>, dest: nat, src: nat, k: nat, m: nat)
    requires dest + k + m <= |s| && src + k + m <= |s| && Disjoint(dest, src, k + m)
    ensures Copied(Copied(s, dest, src, k), dest + k, src + k, m) == Copied(s, dest, src, k + m)
  {
    CopiedMore(s, dest, src, k, m);
  }
}
