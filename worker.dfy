/**
 * The allocation record of the JVM worker (package com.google.caliper.worker):
 * one distinct kind of allocation performed by a benchmark, described by a
 * human-readable label, a size in bytes and the stack trace it came from,
 * and the byte total of a counted multiset of such records.
 *
 * Strings are interned by the original when an allocation is built; interning
 * changes which object holds the characters, never the characters, so here a
 * string is kept as it is given.
 */
module Worker {
  import opened JavaText

  // ---------------------------------------------------------------------
  // Stack frames

  /**
   * A java.lang.StackTraceElement: declaring class, method, source file if
   * known, and line number (negative when unknown, -2 for a native method).
   */
  datatype StackFrame = StackFrame(declaringClass: string, methodName: string, fileName: Option<string>, lineNumber: int)

  /** `StackTraceElement.toString()` in its classic form, e.g. `com.Foo.bar(Foo.java:12)`. */
  function FrameToString(f: StackFrame): string {
    f.declaringClass + "." + f.methodName +
    (if f.lineNumber == -2 then "(Native Method)"
     else if f.fileName.Some? && f.lineNumber >= 0 then "(" + f.fileName.value + ":" + LongToString(f.lineNumber) + ")"
     else if f.fileName.Some? then "(" + f.fileName.value + ")"
     else "(Unknown Source)")
  }

  // ---------------------------------------------------------------------
  // The Allocation value

  /**
   * An immutable allocation record. The destructors `description`, `size`
   * and `location` are the getters of the original.
   */
  datatype Allocation = Allocation(description: string, size: int, location: seq<string>)

  /**
   * The constructor: keeps the description and the size, and renders each
   * stack frame to its string form, in order, through a list builder.
   */
  method NewAllocation(description: string, size: int, location: seq<StackFrame>) returns (a: Allocation)
    ensures a.description == description && a.size == size
    ensures |a.location| == |location|
    ensures forall i :: 0 <= i < |location| ==> a.location[i] == FrameToString(location[i])
  {
    var locationBuilder: seq<string> := [];
    for i := 0 to |location|
      invariant |locationBuilder| == i
      invariant forall k :: 0 <= k < i ==> locationBuilder[k] == FrameToString(location[k])
    {
      locationBuilder := locationBuilder + [FrameToString(location[i])];
    }
    a := Allocation(description, size, locationBuilder);
  }

  /** The argument of `equals(Object)`: null, an Allocation, or an object of another class. */
  datatype JavaObject = Null | AnAllocation(allocation: Allocation) | OtherObject(className: string)

  /**
   * `equals`: only another Allocation can be equal, and then exactly when its
   * description, size and whole location list agree, which is to say when it
   * is the same value.
   */
  function Equals(self: Allocation, obj: JavaObject): (r: bool)
    ensures r <==> obj == AnAllocation(self)
    ensures !obj.AnAllocation? ==> !r
  {
    match obj
    case AnAllocation(other) =>
      other.description == self.description && other.size == self.size && other.location == self.location
    case _ => false
  }

  /** `equals` is an equivalence relation on allocations, as `Object.equals` demands. */
  lemma EqualsIsEquivalence(a: Allocation, b: Allocation, c: Allocation)
    ensures Equals(a, AnAllocation(a))
    ensures Equals(a, AnAllocation(b)) <==> Equals(b, AnAllocation(a))
    ensures Equals(a, AnAllocation(b)) && Equals(b, AnAllocation(c)) ==> Equals(a, AnAllocation(c))
  {
  }

  /** Polynomial string hash in the shape of `String.hashCode` (without 32-bit wrap-around). */
  function StringHash(s: string): int {
    if s == [] then 0 else 31 * StringHash(s[..|s| - 1]) + s[|s| - 1] as int
  }

  /** List hash in the shape of `List.hashCode` (without 32-bit wrap-around). */
  function ListHash(xs: seq<string>): int {
    if xs == [] then 1 else 31 * ListHash(xs[..|xs| - 1]) + StringHash(xs[|xs| - 1])
  }

  /** `Arrays.hashCode` of an array whose elements hash to `hashes`, which is what `Objects.hashCode(Object...)` returns. */
  function ArrayHash(hashes: seq<int>): int {
    if hashes == [] then 1 else 31 * ArrayHash(hashes[..|hashes| - 1]) + hashes[|hashes| - 1]
  }

  /**
   * `hashCode`: `Objects.hashCode(description, size, location)`, a hash of
   * the three compared fields, in that order, and of nothing else.
   */
  function HashCode(a: Allocation): (h: int)
    ensures h == ArrayHash([StringHash(a.description), a.size, ListHash(a.location)])
  {
    var fields := [StringHash(a.description), a.size, ListHash(a.location)];
    assert fields[..2] == [StringHash(a.description), a.size] && fields[..2][..1] == [StringHash(a.description)];
    assert ArrayHash(fields[..2][..1]) == 31 + StringHash(a.description) by {
      assert fields[..2][..1][..0] == [];
    }
    31 * (31 * (31 + StringHash(a.description)) + a.size) + ListHash(a.location)
  }

  /** Equal allocations have equal hash codes, so equal records meet in one multiset entry. */
  lemma HashCodeConsistentWithEquals(a: Allocation, b: Allocation)
    requires Equals(a, AnAllocation(b))
    ensures HashCode(a) == HashCode(b)
  {
  }

  const AT: string := "\n\tat "

  /** The first line of `toString`: the description and the size in bytes. */
  function Header(a: Allocation): string {
    a.description + " (" + LongToString(a.size) + " bytes)"
  }

  /**
   * `toString`: the header, then `at` and the frames joined by a line break
   * and `at`. After the header every frame sits on its own line behind a tab
   * and `at`; with no frames a bare `at` line is left.
   */
  function ToString(a: Allocation): (r: string)
    ensures |a.location| >= 1 ==> r == Header(a) + PrefixEach(a.location, AT)
    ensures |a.location| == 0 ==> r == Header(a) + AT
  {
    var text := Header(a) + AT + Join(a.location, AT);
    if |a.location| >= 1 then
      SepJoinIsPrefixEach(a.location, AT);
      assert text == Header(a) + (AT + Join(a.location, AT));
      text
    else
      text
  }

  /** The size is written into `toString` so that it reads back exactly. */
  lemma ToStringSizeReadsBack(a: Allocation)
    ensures var start := |a.description| + 2;
            start + |LongToString(a.size)| <= |ToString(a)| &&
            ParseLong(ToString(a)[start..start + |LongToString(a.size)|]) == Some(a.size)
  {
    var start := |a.description| + 2;
    var digits := LongToString(a.size);
    assert ToString(a) == a.description + " (" + digits + (" bytes)" + AT + Join(a.location, AT));
    assert ToString(a)[start..start + |digits|] == digits;
    LongToStringRoundTrip(a.size);
  }

  // ---------------------------------------------------------------------
  // Total size of a counted multiset of allocations

  /** Σ over the distinct allocations of `m` of size × count. */
  ghost function EntrySum(m: multiset<Allocation>): int
    decreases |m|
  {
    if m == multiset{} then 0
    else
      var a :| a in m;
      RemovingEntryShrinks(m, a);
      a.size * m[a] + EntrySum(m[a := 0])
  }

  lemma RemovingEntryShrinks(m: multiset<Allocation>, a: Allocation)
    requires a in m
    ensures |m[a := 0]| < |m|
  {
  }

  /** The sum does not depend on which entry is taken first: any entry can be split off. */
  lemma {:induction false} EntrySumRemove(m: multiset<Allocation>, a: Allocation)
    requires a in m
    ensures EntrySum(m) == a.size * m[a] + EntrySum(m[a := 0])
    decreases |m|
  {
    var b :| b in m && EntrySum(m) == b.size * m[b] + EntrySum(m[b := 0]);
    if b != a {
      RemovingEntryShrinks(m, a);
      RemovingEntryShrinks(m, b);
      EntrySumRemove(m[b := 0], a);
      EntrySumRemove(m[a := 0], b);
      assert m[b := 0][a := 0] == m[a := 0][b := 0];
    }
  }

  /** The sum of the sizes of a sequence of recorded allocation events, one by one. */
  function ReplaySum(events: seq<Allocation>): int {
    if events == [] then 0 else ReplaySum(events[..|events| - 1]) + events[|events| - 1].size
  }

  /** Recording one more occurrence of `a` adds exactly `a.size` to the total. */
  lemma EntrySumAddOne(m: multiset<Allocation>, a: Allocation)
    ensures EntrySum(m + multiset{a}) == EntrySum(m) + a.size
  {
    var m' := m + multiset{a};
    var count := m[a];
    assert m'[a] == count + 1;
    assert m'[a := 0] == m[a := 0];
    EntrySumRemove(m', a);
    assert EntrySum(m) == a.size * count + EntrySum(m[a := 0]) by {
      if a in m {
        EntrySumRemove(m, a);
      } else {
        assert m[a := 0] == m;
      }
    }
    MulSucc(a.size, count);
  }

  lemma MulSucc(x: int, n: nat)
    ensures x * (n + 1) == x * n + x
  {
  }

  /** The entry-by-entry total equals the sum over every recorded occurrence. */
  lemma {:induction false} EntrySumIsReplaySum(events: seq<Allocation>)
    ensures EntrySum(multiset(events)) == ReplaySum(events)
  {
    if events != [] {
      var init, last := events[..|events| - 1], events[|events| - 1];
      assert events == init + [last];
      assert multiset(events) == multiset(init) + multiset{last};
      EntrySumIsReplaySum(init);
      EntrySumAddOne(multiset(init), last);
    }
  }

  /**
   * `getTotalSize`: one pass over the entries of the multiset, adding size ×
   * count of each; the running total is the sum over the entries visited.
   */
  method GetTotalSize(allocations: multiset<Allocation>) returns (totalSize: int)
    ensures totalSize == EntrySum(allocations)
    ensures allocations == multiset{} ==> totalSize == 0
  {
    totalSize := 0;
    var remaining := allocations;
    while remaining != multiset{}
      invariant totalSize + EntrySum(remaining) == EntrySum(allocations)
      decreases |remaining|
    {
      var allocation :| allocation in remaining;
      EntrySumRemove(remaining, allocation);
      RemovingEntryShrinks(remaining, allocation);
      totalSize := totalSize + allocation.size * remaining[allocation];
      remaining := remaining[allocation := 0];
    }
  }
}
