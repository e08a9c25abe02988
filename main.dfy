/**
 * The program's one routine, `main`: allocate a 24-byte heap buffer, zero it,
 * copy a literal into it, copy all 24 bytes into a stack buffer through a
 * moving cursor, then free the heap buffer and clear the pointer.
 *
 * What `malloc` returns (success or NULL) and what the freshly allocated heap
 * block and the uninitialised stack array happen to hold are parameters. The
 * library calls the routine makes are recorded, in order, as a trace.
 */
module RoundTrip {
  import opened CString

  /** Width of the heap buffer and of the stack buffer, in bytes. */
  const BufSize: nat := 24

  /** The literal copied into the heap buffer (20 characters). */
  const Literal: string := "HelloT1mzhouCSDNTEST"

  /** The diagnostic printed when the allocation fails. */
  const AllocFailedMsg: string := "test data malloc failed\n"

  datatype Option<T> = None | Some(value: T)

  /**
   * A call the routine makes into the C library. The `bzero` and `strcpy`
   * entries carry the heap buffer's contents as the call left them.
   */
  datatype LibCall =
    | MallocCall(size: nat)
    | PrintfCall(text: string)
    | BzeroCall(length: nat, after: seq<char>)
    | StrcpyCall(copied: string, after: seq<char>)
    | FreeCall

  /** How many times call c occurs in a trace. */
  function Count(calls: seq<LibCall>, c: LibCall): (n: nat)
    ensures n <= |calls|
    ensures n == 0 <==> c !in calls
  {
    if calls == [] then 0
    else (if calls[0] == c then 1 else 0) + Count(calls[1..], c)
  }

  /** The calls made when `malloc` returns NULL: the diagnostic, and nothing else. */
  const FailureCalls: seq<LibCall> := [MallocCall(BufSize), PrintfCall(AllocFailedMsg)]

  /**
   * The calls made when `malloc` succeeds: the zero-fill leaves 24 NULs, the
   * copy leaves the literal padded with NULs, then the buffer is freed.
   */
  const SuccessCalls: seq<LibCall> :=
    [MallocCall(BufSize), BzeroCall(BufSize, Zeros(BufSize)),
     StrcpyCall(Literal, HeapAfterStrcpy()), FreeCall]

  /** The failure path acquires once, releases nothing and prints the diagnostic once. */
  lemma FailureCallCounts()
    ensures Count(FailureCalls, MallocCall(BufSize)) == 1
    ensures Count(FailureCalls, FreeCall) == 0
    ensures Count(FailureCalls, PrintfCall(AllocFailedMsg)) == 1
    ensures forall c :: c in FailureCalls ==> !c.BzeroCall? && !c.StrcpyCall?
  {
  }

  /** The success path acquires once, releases exactly once and prints nothing. */
  lemma SuccessCallCounts()
    ensures Count(SuccessCalls, MallocCall(BufSize)) == 1
    ensures Count(SuccessCalls, FreeCall) == 1
    ensures Count(SuccessCalls, PrintfCall(AllocFailedMsg)) == 0
  {
    var m, f, d := MallocCall(BufSize), FreeCall, PrintfCall(AllocFailedMsg);
    var s3: seq<LibCall> := [FreeCall];
    var s2 := [StrcpyCall(Literal, HeapAfterStrcpy())] + s3;
    var s1 := [BzeroCall(BufSize, Zeros(BufSize))] + s2;
    assert s3[1..] == [] && s2[1..] == s3 && s1[1..] == s2 && SuccessCalls[1..] == s1;
    assert Count(s3, m) == 0 && Count(s3, f) == 1 && Count(s3, d) == 0;
    assert Count(s2, m) == 0 && Count(s2, f) == 1 && Count(s2, d) == 0;
    assert Count(s1, m) == 0 && Count(s1, f) == 1 && Count(s1, d) == 0;
  }

  /** The heap buffer's contents once `bzero` and `strcpy` have run. */
  function HeapAfterStrcpy(): seq<char> {
    Literal + Zeros(BufSize - |Literal|)
  }

  /**
   * The literal as the character array `char test[]` holds it: 20 characters,
   * then the terminator.
   */
  function TestArray(): seq<char> {
    Literal + [NUL]
  }

  /**
   * `strcpy` of the literal fits: the literal holds no NUL, its length is 20,
   * and with its terminator it needs 21 of the buffer's 24 bytes.
   */
  lemma LiteralFits()
    ensures NUL !in Literal && |Literal| == 20
    ensures NUL in TestArray() && CStrLen(TestArray()) == |Literal|
    ensures CStrLen(TestArray()) + 1 <= BufSize
  {
  }

  /**
   * After `bzero` and `strcpy`, bytes 0..19 hold the literal, byte 20 is the
   * terminator and bytes 21..23 are still zero, so the fixed-width copy reads
   * only bytes that were written; reading the buffer as a C string gives
   * back the literal.
   */
  lemma HeapLayout()
    ensures |HeapAfterStrcpy()| == BufSize
    ensures HeapAfterStrcpy()[..|Literal|] == Literal
    ensures forall k :: |Literal| <= k < BufSize ==> HeapAfterStrcpy()[k] == NUL
    ensures HeapAfterStrcpy() == StrcpyResult(Zeros(BufSize), TestArray())
    ensures NUL in HeapAfterStrcpy() && ReadCString(HeapAfterStrcpy()) == Literal
  {
    LiteralFits();
    StrcpyIntoZeros(Literal, BufSize);
    ReadBackAfterStrcpy(Zeros(BufSize), Literal);
  }

  /** `malloc(size)`: a fresh block holding leftover bytes, or NULL. */
  method MallocBlock(size: nat, succeeds: bool, leftover: seq<char>)
    returns (p: array?<char>, call: LibCall)
    ensures call == MallocCall(size)
    ensures succeeds <==> p != null
    ensures p != null ==> fresh(p) && p.Length == size
    ensures p != null ==> forall k :: 0 <= k < size && k < |leftover| ==> p[k] == leftover[k]
  {
    call := MallocCall(size);
    if succeeds {
      p := new char[size](k => if 0 <= k < |leftover| then leftover[k] else NUL);
    } else {
      p := null;
    }
  }

  /** A character array initialised from a string literal: its characters, then NUL. */
  method StringArray(s: string) returns (a: array<char>)
    ensures fresh(a) && a[..] == s + [NUL]
  {
    a := new char[|s| + 1];
    forall k | 0 <= k <= |s| {
      a[k] := if k < |s| then s[k] else NUL;
    }
  }

  /** `bzero(a, n)`, reporting the call with the buffer as it left it. */
  method CallBzero(a: array<char>, n: nat) returns (call: LibCall)
    requires n <= a.Length
    modifies a
    ensures a[..] == Zeros(n) + old(a[..])[n..]
    ensures call == BzeroCall(n, a[..])
  {
    Bzero(a, n);
    call := BzeroCall(n, a[..]);
  }

  /** `strcpy(dst, src)`, reporting the string copied and the buffer as it left it. */
  method CallStrcpy(dst: array<char>, src: array<char>) returns (call: LibCall)
    requires NUL in src[..] && CStrLen(src[..]) < dst.Length
    requires dst != src
    modifies dst
    ensures dst[..] == StrcpyResult(old(dst[..]), src[..])
    ensures call == StrcpyCall(ReadCString(src[..]), dst[..])
  {
    Strcpy(dst, src);
    call := StrcpyCall(ReadCString(src[..]), dst[..]);
  }

  /**
   * The zero-fill and the copy of the literal into the freshly allocated heap
   * buffer; returns the two calls, as the library routines reported them.
   */
  method PrepareHeap(testData: array<char>) returns (calls: seq<LibCall>)
    requires testData.Length == BufSize
    modifies testData
    ensures testData[..] == HeapAfterStrcpy()
    ensures calls == [BzeroCall(BufSize, Zeros(BufSize)), StrcpyCall(Literal, HeapAfterStrcpy())]
  {
    var zeroed := CallBzero(testData, BufSize);
    assert testData[..] == Zeros(BufSize);
    var test := StringArray(Literal);
    assert NUL in test[..] && CStrLen(test[..]) < testData.Length && ReadCString(test[..]) == Literal by {
      LiteralFits();
      assert ReadCString(TestArray()) == TestArray()[..|Literal|] == Literal;
    }
    var copied := CallStrcpy(testData, test);
    assert testData[..] == HeapAfterStrcpy() by { HeapLayout(); }
    calls := [zeroed, copied];
  }

  /**
   * `main`. Returns the exit status, the library calls made, the stack
   * buffer's final contents when the routine got that far, and the owning
   * pointer `test_data` as it is on return. The ghost `heapAtCopy` is the
   * heap buffer's contents while the copy loop ran.
   */
  method Run(mallocSucceeds: bool, heapLeftover: seq<char>, stackLeftover: seq<char>)
    returns (status: int, calls: seq<LibCall>, stack: Option<seq<char>>, testData: array?<char>,
             ghost heapAtCopy: seq<char>)
    ensures status == 0
    ensures testData == null
    ensures calls == if mallocSucceeds then SuccessCalls else FailureCalls
    ensures Count(calls, MallocCall(BufSize)) == 1
    ensures Count(calls, FreeCall) == if mallocSucceeds then 1 else 0
    ensures Count(calls, PrintfCall(AllocFailedMsg)) == if mallocSucceeds then 0 else 1
    ensures !mallocSucceeds <==> stack == None
    ensures mallocSucceeds ==> heapAtCopy == HeapAfterStrcpy() && stack == Some(heapAtCopy)
    ensures stack.Some? ==> |stack.value| == BufSize
    ensures stack.Some? ==> NUL in stack.value && ReadCString(stack.value) == Literal
  {
    status := 0;
    heapAtCopy := [];
    var acquired;
    testData, acquired := MallocBlock(BufSize, mallocSucceeds, heapLeftover);
    calls := [acquired];
    if testData == null {
      calls := calls + [PrintfCall(AllocFailedMsg)];
      stack := None;
      assert calls == FailureCalls;
      FailureCallCounts();
      return;
    }

    var prepared := PrepareHeap(testData);
    calls := calls + prepared;
    heapAtCopy := testData[..];

    var buf := new char[BufSize](k => if 0 <= k < |stackLeftover| then stackLeftover[k] else NUL);
    var tmp := 0;  // the cursor, as an index into testData
    for i := 0 to BufSize
      invariant tmp == i
      invariant testData[..] == heapAtCopy
      invariant buf[..i] == heapAtCopy[..i]
    {
      buf[i] := testData[tmp];
      tmp := tmp + 1;
    }
    assert buf[..] == buf[..BufSize] == heapAtCopy[..BufSize] == heapAtCopy;
    stack := Some(buf[..]);

    calls := calls + [FreeCall];
    testData := null;
    assert calls == SuccessCalls by {
      assert calls == [MallocCall(BufSize)] + prepared + [FreeCall];
    }
    assert NUL in stack.value && ReadCString(stack.value) == Literal by { HeapLayout(); }
    SuccessCallCounts();
  }
}
