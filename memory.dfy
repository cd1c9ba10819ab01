/**
 * Memory handed back by a COM server: every buffer a server allocates for
 * an out-parameter is a block at a pointer, and pointer 0 is nil. A block
 * holds a typed array, a string, or the one structure the client reads
 * field by field (OPCCONDITIONSTATE).
 */
module Memory {
  import opened Win

  /** A buffer address; 0 is nil. */
  type Ptr = nat

  const Nil: Ptr := 0

  /** The fields of an OPCCONDITIONSTATE as a server lays it out. */
  datatype RawConditionState = RawConditionState(
    state: uint16,
    reserved1: uint16,
    activeSubCondition: Ptr,
    ascDefinition: Ptr,
    ascSeverity: uint32,
    ascDescription: Ptr,
    quality: uint16,
    reserved2: uint16,
    lastAckTime: Filetime,
    subCondLastActive: Filetime,
    condLastActive: Filetime,
    condLastInactive: Filetime,
    acknowledgerID: Ptr,
    comment: Ptr,
    numSCs: uint32,
    scNames: Ptr,
    scDefinitions: Ptr,
    scSeverities: Ptr,
    scDescriptions: Ptr,
    numEventAttrs: uint32,
    eventAttributes: Ptr,
    errors: Ptr)

  datatype Block =
    | DwordBlock(dwords: seq<uint32>)          // DWORD[]
    | WordBlock(words: seq<uint16>)            // WORD[] / VARTYPE[]
    | Int32Block(ints: seq<int32>)             // HRESULT[]
    | PointerBlock(ptrs: seq<Ptr>)             // LPWSTR[]
    | GuidBlock(guids: seq<Guid>)              // CLSID[]
    | VariantBlock(variants: seq<Variant>)     // VARIANT[]
    | StringBlock(text: string)                   // a NUL-terminated UTF-16 string, as it converts
    | ConditionStateBlock(cs: RawConditionState)

  type Mem = map<Ptr, Block>

  /** A string pointer that can be read: nil, or a string block. */
  predicate IsString(mem: Mem, p: Ptr) {
    p == Nil || (p in mem && mem[p].StringBlock?)
  }

  /** `windows.UTF16PtrToString`: nil reads as the empty string. */
  function ReadString(mem: Mem, p: Ptr): string
    requires IsString(mem, p)
  {
    if p == Nil then "" else mem[p].text
  }

  // Each `...Array(mem, p, n)` says that `p` holds at least `n` elements of
  // the right kind; nothing is read when `n` is 0.

  predicate DwordArray(mem: Mem, p: Ptr, n: nat) {
    n == 0 || (p in mem && mem[p].DwordBlock? && n <= |mem[p].dwords|)
  }

  predicate WordArray(mem: Mem, p: Ptr, n: nat) {
    n == 0 || (p in mem && mem[p].WordBlock? && n <= |mem[p].words|)
  }

  predicate Int32Array(mem: Mem, p: Ptr, n: nat) {
    n == 0 || (p in mem && mem[p].Int32Block? && n <= |mem[p].ints|)
  }

  predicate GuidArray(mem: Mem, p: Ptr, n: nat) {
    n == 0 || (p in mem && mem[p].GuidBlock? && n <= |mem[p].guids|)
  }

  predicate VariantArray(mem: Mem, p: Ptr, n: nat) {
    n == 0 || (p in mem && mem[p].VariantBlock? && n <= |mem[p].variants|)
  }

  /** An LPWSTR array whose first `n` slots are readable strings. */
  predicate StringArray(mem: Mem, p: Ptr, n: nat) {
    n == 0 ||
    (p in mem && mem[p].PointerBlock? && n <= |mem[p].ptrs| &&
     forall i :: 0 <= i < n ==> IsString(mem, mem[p].ptrs[i]))
  }

  function Dwords(mem: Mem, p: Ptr, n: nat): (r: seq<uint32>)
    requires DwordArray(mem, p, n)
    ensures |r| == n
  {
    if n == 0 then [] else mem[p].dwords[..n]
  }

  function Words(mem: Mem, p: Ptr, n: nat): (r: seq<uint16>)
    requires WordArray(mem, p, n)
    ensures |r| == n
  {
    if n == 0 then [] else mem[p].words[..n]
  }

  function Int32s(mem: Mem, p: Ptr, n: nat): (r: seq<int32>)
    requires Int32Array(mem, p, n)
    ensures |r| == n
  {
    if n == 0 then [] else mem[p].ints[..n]
  }

  function Guids(mem: Mem, p: Ptr, n: nat): (r: seq<Guid>)
    requires GuidArray(mem, p, n)
    ensures |r| == n
  {
    if n == 0 then [] else mem[p].guids[..n]
  }

  function Variants(mem: Mem, p: Ptr, n: nat): (r: seq<Variant>)
    requires VariantArray(mem, p, n)
    ensures |r| == n
  {
    if n == 0 then [] else mem[p].variants[..n]
  }

  /** The first `n` string pointers of an LPWSTR array. */
  function StringPtrs(mem: Mem, p: Ptr, n: nat): (r: seq<Ptr>)
    requires StringArray(mem, p, n)
    ensures |r| == n
    ensures forall i :: 0 <= i < n ==> IsString(mem, r[i])
  {
    if n == 0 then [] else mem[p].ptrs[..n]
  }

  /** The first `n` strings of an LPWSTR array, each read as `ReadString` reads it. */
  function Strings(mem: Mem, p: Ptr, n: nat): (r: seq<string>)
    requires StringArray(mem, p, n)
    ensures |r| == n
  {
    var ptrs := StringPtrs(mem, p, n);
    seq(n, i requires 0 <= i < n => ReadString(mem, ptrs[i]))
  }

  // ---------------------------------------------------------------------
  // The server side: laying out an array of strings

  /** All pointers are non-nil and pairwise different. */
  predicate DistinctPtrs(ptrs: seq<Ptr>) {
    (forall i :: 0 <= i < |ptrs| ==> ptrs[i] != Nil) &&
    forall i, j :: 0 <= i < j < |ptrs| ==> ptrs[i] != ptrs[j]
  }

  /** Memory after a server stores `texts[i]` in a fresh string at `ptrs[i]`, for every i. */
  function PutStrings(mem: Mem, ptrs: seq<Ptr>, texts: seq<string>): Mem
    requires |ptrs| == |texts|
    decreases |ptrs|
  {
    if ptrs == [] then mem
    else PutStrings(mem[ptrs[0] := StringBlock(texts[0])], ptrs[1..], texts[1..])
  }

  /** The answer a server builds for a list of strings: the strings, then the LPWSTR array at `p`. */
  function LayOutStrings(mem: Mem, p: Ptr, ptrs: seq<Ptr>, texts: seq<string>): Mem
    requires |ptrs| == |texts|
  {
    PutStrings(mem, ptrs, texts)[p := PointerBlock(ptrs)]
  }

  /** Storing strings leaves every other address alone and makes each stored one readable. */
  lemma {:induction false} PutStringsReads(mem: Mem, ptrs: seq<Ptr>, texts: seq<string>)
    requires |ptrs| == |texts| && DistinctPtrs(ptrs)
    decreases |ptrs|
    ensures forall q :: q !in ptrs ==> (q in PutStrings(mem, ptrs, texts) <==> q in mem)
    ensures forall q :: q !in ptrs && q in mem ==> PutStrings(mem, ptrs, texts)[q] == mem[q]
    ensures forall i :: 0 <= i < |ptrs| ==>
              ptrs[i] in PutStrings(mem, ptrs, texts) && PutStrings(mem, ptrs, texts)[ptrs[i]] == StringBlock(texts[i])
  {
    if ptrs != [] {
      var mem' := mem[ptrs[0] := StringBlock(texts[0])];
      assert DistinctPtrs(ptrs[1..]);
      PutStringsReads(mem', ptrs[1..], texts[1..]);
      forall i | 0 <= i < |ptrs|
        ensures ptrs[i] in PutStrings(mem, ptrs, texts) && PutStrings(mem, ptrs, texts)[ptrs[i]] == StringBlock(texts[i])
      {
        if i == 0 {
          assert ptrs[0] !in ptrs[1..] by {
            forall j | 0 <= j < |ptrs[1..]| ensures ptrs[1..][j] != ptrs[0] {
              assert ptrs[1..][j] == ptrs[j + 1];
            }
          }
        } else {
          assert ptrs[1..][i - 1] == ptrs[i];
        }
      }
      forall q | q !in ptrs ensures q !in ptrs[1..] && q != ptrs[0] {
        assert ptrs[0] in ptrs;
        assert forall x :: x in ptrs[1..] ==> x in ptrs;
      }
    }
  }

  /**
   * Reading back what a server laid out gives the strings it stored, in
   * order, and the pointers it allocated for them.
   */
  lemma ReadBackStrings(mem: Mem, p: Ptr, ptrs: seq<Ptr>, texts: seq<string>)
    requires |ptrs| == |texts| && DistinctPtrs(ptrs) && p != Nil && p !in ptrs
    ensures StringArray(LayOutStrings(mem, p, ptrs, texts), p, |texts|)
    ensures StringPtrs(LayOutStrings(mem, p, ptrs, texts), p, |texts|) == ptrs
    ensures Strings(LayOutStrings(mem, p, ptrs, texts), p, |texts|) == texts
  {
    var m := LayOutStrings(mem, p, ptrs, texts);
    PutStringsReads(mem, ptrs, texts);
    forall i | 0 <= i < |ptrs| ensures m[ptrs[i]] == StringBlock(texts[i]) {
      assert ptrs[i] != p;
    }
    if texts != [] {
      assert m[p].ptrs[..|texts|] == ptrs;
    }
  }
}
