/** The seccomp deny list: the generator of the classic-BPF program, the kernel's checks of
    it, and an interpreter it is run against. */
module Seccomp {

  const TWO_32: int := 0x1_0000_0000
  const RET_ALLOW: nat := 0x7fff_0000
  const RET_ERRNO_EPERM: nat := 0x0005_0001
  /** The longest program the kernel takes. */
  const BPF_MAXINSNS: nat := 4096

  /** `struct seccomp_data`, whose first word is the syscall number. */
  const SECCOMP_DATA_SIZE: nat := 64

  const BPF_LD_W_ABS: nat := 0x20
  const BPF_JMP_JEQ_K: nat := 0x15
  const BPF_RET_K: nat := 0x06

  datatype Filter = Filter(code: nat, jt: nat, jf: nat, k: nat)

  function Stmt(code: nat, k: nat): Filter { Filter(code, 0, 0, k) }
  function Jump(code: nat, k: nat, jt: nat, jf: nat): Filter { Filter(code, jt, jf, k) }

  /** The conversion `uint32(nr)`. */
  function Word(nr: int): nat { nr % TWO_32 }

  function Denies(denied: seq<int>): seq<Filter> {
    if denied == [] then []
    else Denies(denied[..|denied| - 1])
         + [Jump(BPF_JMP_JEQ_K, Word(denied[|denied| - 1]), 0, 1), Stmt(BPF_RET_K, RET_ERRNO_EPERM)]
  }

  function Program(denied: seq<int>): seq<Filter> {
    [Stmt(BPF_LD_W_ABS, 0)] + Denies(denied) + [Stmt(BPF_RET_K, RET_ALLOW)]
  }

  /** `seccompDenylistProgram`. */
  method DenylistProgram(denied: seq<int>) returns (prog: seq<Filter>)
    ensures prog == Program(denied)
  {
    prog := [Stmt(BPF_LD_W_ABS, 0)];
    for i := 0 to |denied|
      invariant prog == [Stmt(BPF_LD_W_ABS, 0)] + Denies(denied[..i])
    {
      prog := prog + [Jump(BPF_JMP_JEQ_K, Word(denied[i]), 0, 1), Stmt(BPF_RET_K, RET_ERRNO_EPERM)];
      assert denied[..i + 1][..i] == denied[..i];
    }
    assert denied[..|denied|] == denied;
    prog := prog + [Stmt(BPF_RET_K, RET_ALLOW)];
  }

  // ---- The machine ----

  /** Every jump lands inside the program and its last instruction returns. */
  predicate WellFormed(prog: seq<Filter>) {
    && 0 < |prog|
    && prog[|prog| - 1].code == BPF_RET_K
    && (forall i :: 0 <= i < |prog| ==> prog[i].code in {BPF_LD_W_ABS, BPF_JMP_JEQ_K, BPF_RET_K})
    && (forall i :: 0 <= i < |prog| && prog[i].code == BPF_LD_W_ABS ==> prog[i].k % 4 == 0 && prog[i].k + 4 <= SECCOMP_DATA_SIZE)
    && (forall i :: 0 <= i < |prog| && prog[i].code == BPF_JMP_JEQ_K ==> i + 1 + prog[i].jt < |prog| && i + 1 + prog[i].jf < |prog|)
  }

  predicate KernelAccepts(prog: seq<Filter>) {
    WellFormed(prog) && |prog| <= BPF_MAXINSNS
  }

  /** Runs the program from `pc`; jumps only go forward, so it ends. The bounds of every
      fetch are proved, not checked at run time. */
  function Interpret(prog: seq<Filter>, pc: nat, acc: nat, data: nat -> nat): nat
    requires WellFormed(prog) && pc < |prog|
    decreases |prog| - pc
  {
    var f := prog[pc];
    if f.code == BPF_RET_K then f.k
    else if f.code == BPF_LD_W_ABS then Interpret(prog, pc + 1, data(f.k), data)
    else Interpret(prog, pc + 1 + (if acc == f.k then f.jt else f.jf), acc, data)
  }

  lemma {:induction false} DeniesAt(denied: seq<int>, i: nat)
    requires i < |denied|
    ensures |Denies(denied)| == 2 * |denied|
    ensures Denies(denied)[2 * i] == Jump(BPF_JMP_JEQ_K, Word(denied[i]), 0, 1)
    ensures Denies(denied)[2 * i + 1] == Stmt(BPF_RET_K, RET_ERRNO_EPERM)
  {
    DeniesLength(denied[..|denied| - 1]);
    if i < |denied| - 1 { DeniesAt(denied[..|denied| - 1], i); }
  }

  lemma {:induction false} DeniesLength(denied: seq<int>)
    ensures |Denies(denied)| == 2 * |denied|
  {
    if denied != [] { DeniesLength(denied[..|denied| - 1]); }
  }

  lemma ProgramAt(denied: seq<int>, i: nat)
    requires i < |denied|
    ensures |Program(denied)| == 2 * |denied| + 2
    ensures Program(denied)[2 * i + 1] == Jump(BPF_JMP_JEQ_K, Word(denied[i]), 0, 1)
    ensures Program(denied)[2 * i + 2] == Stmt(BPF_RET_K, RET_ERRNO_EPERM)
  {
    DeniesAt(denied, i);
  }

  /** The kernel takes the program if and only if the list is short enough. */
  lemma AcceptedIff(denied: seq<int>)
    ensures WellFormed(Program(denied))
    ensures KernelAccepts(Program(denied)) <==> |denied| <= 2047
  {
    var prog := Program(denied);
    DeniesLength(denied);
    forall j: nat | 0 < j < |prog| - 1
      ensures prog[j].code in {BPF_JMP_JEQ_K, BPF_RET_K}
      ensures prog[j].code == BPF_JMP_JEQ_K ==> j + 2 < |prog| && prog[j].jt == 0 && prog[j].jf == 1
    {
      ProgramAt(denied, (j - 1) / 2);
    }
  }

  predicate Listed(denied: seq<int>, from: nat, nr: nat) {
    exists i :: from <= i < |denied| && Word(denied[i]) == nr
  }

  lemma {:induction false} RunFrom(denied: seq<int>, i: nat, nr: nat, data: nat -> nat)
    requires i <= |denied| && nr < TWO_32 && WellFormed(Program(denied)) && 2 * i + 1 < |Program(denied)|
    ensures Interpret(Program(denied), 2 * i + 1, nr, data) == if Listed(denied, i, nr) then RET_ERRNO_EPERM else RET_ALLOW
    decreases |denied| - i
  {
    DeniesLength(denied);
    if i < |denied| {
      ProgramAt(denied, i);
      RunFrom(denied, i + 1, nr, data);
    }
  }

  /** Compilation: for every list and every system call, whose `data(k)` is the word at offset
      `k` of its `seccomp_data`, the generated program stays in bounds, ends, and returns
      EPERM if the number, the first word, is listed and ALLOW otherwise. */
  lemma FilterDecides(denied: seq<int>, data: nat -> nat)
    requires data(0) < TWO_32
    ensures WellFormed(Program(denied)) && |Program(denied)| > 0
    ensures Interpret(Program(denied), 0, 0, data) == if Listed(denied, 0, data(0)) then RET_ERRNO_EPERM else RET_ALLOW
  {
    AcceptedIff(denied);
    DeniesLength(denied);
    RunFrom(denied, 0, data(0), data);
  }
}
