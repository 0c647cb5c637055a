/** The seccomp filter that taps system calls: its builder, and a classic-BPF machine
    to run what it builds. */
module TapFilter {

  type u8 = x: int | 0 <= x < 0x100
  type u32 = x: int | 0 <= x < 0x1_0000_0000

  datatype Instr = Instr(code: nat, jt: u8, jf: u8, k: u32)

  const LD_ABS := 0x20          // LD | W | ABS
  const JEQ_K := 0x15           // JMP | JEQ | K
  const RET_K := 0x06           // RET | K

  const NR_OFFSET: u32 := 0
  const ARCH_OFFSET: u32 := 4

  const RET_ALLOW: u32 := 0x7fff_0000
  const RET_USER_NOTIF: u32 := 0x7fc0_0000

  function Stmt(code: nat, k: u32): Instr { Instr(code, 0, 0, k) }

  function Jump(code: nat, k: u32, jt: u8, jf: u8): Instr { Instr(code, jt, jf, k) }

  // -- The machine -----------------------------------------------------------------------

  /** The part of a system call the filter looks at. */
  datatype Syscall = Syscall(nr: u32, arch: u32)

  datatype Outcome = Returns(k: u32) | LeftProgram | BadInstruction

  /** Runs `prog` from `pc`; jumps only go forward. */
  function Exec(prog: seq<Instr>, call: Syscall, pc: nat, acc: u32): Outcome
    decreases if pc < |prog| then |prog| - pc else 0
  {
    if pc >= |prog| then LeftProgram
    else
      var i := prog[pc];
      if i.code == RET_K then Returns(i.k)
      else if i.code == JEQ_K then Exec(prog, call, pc + 1 + (if acc == i.k then i.jt else i.jf), acc)
      else if i.code == LD_ABS && i.k == NR_OFFSET then Exec(prog, call, pc + 1, call.nr)
      else if i.code == LD_ABS && i.k == ARCH_OFFSET then Exec(prog, call, pc + 1, call.arch)
      else BadInstruction
  }

  function Filter(prog: seq<Instr>, call: Syscall): Outcome { Exec(prog, call, 0, 0) }

  // -- The builder -------------------------------------------------------------------------

  /** The conversion to an 8-bit jump offset. */
  function ToU8(x: int): u8 { x % 0x100 }

  function Guard(arch: u32): seq<Instr> {
    if arch == 0 then []
    else [Stmt(LD_ABS, ARCH_OFFSET), Jump(JEQ_K, arch, 1, 0), Stmt(RET_K, RET_ALLOW)]
  }

  /** One test per tapped call, each jumping over the rest to the last instruction. */
  function Tests(tapped: seq<u32>): seq<Instr> {
    seq(|tapped|, i requires 0 <= i < |tapped| => Jump(JEQ_K, tapped[i], ToU8(|tapped| - i), 0))
  }

  function Program(tapped: seq<u32>, arch: u32): seq<Instr> {
    Guard(arch) + [Stmt(LD_ABS, NR_OFFSET)] + Tests(tapped) + [Stmt(RET_K, RET_ALLOW), Stmt(RET_K, RET_USER_NOTIF)]
  }

  /** `buildTapFilter` for any list of calls; `arch` zero means no native architecture is known. */
  method BuildTapFilter(tapped: seq<u32>, arch: u32) returns (prog: seq<Instr>)
    ensures prog == Program(tapped, arch)
  {
    prog := [];
    if arch != 0 {
      prog := prog + [Stmt(LD_ABS, ARCH_OFFSET), Jump(JEQ_K, arch, 1, 0), Stmt(RET_K, RET_ALLOW)];
    }
    prog := prog + [Stmt(LD_ABS, NR_OFFSET)];
    var notifyIdx := |prog| + |tapped| + 1;
    ghost var head := prog;
    for i := 0 to |tapped|
      invariant prog == head + Tests(tapped)[..i]
    {
      var idx := |prog|;
      prog := prog + [Jump(JEQ_K, tapped[i], ToU8(notifyIdx - idx - 1), 0)];
    }
    prog := prog + [Stmt(RET_K, RET_ALLOW), Stmt(RET_K, RET_USER_NOTIF)];
    assert head == Guard(arch) + [Stmt(LD_ABS, NR_OFFSET)];
  }

  // -- What the filter does -------------------------------------------------------------------

  /** The calls a jump offset can still reach the last instruction for: the last 255. */
  function Reached(tapped: seq<u32>): seq<u32> {
    if |tapped| <= 255 then tapped else tapped[|tapped| - 255..]
  }

  /** `prog` holds, from `base` on, the tests for `tapped` and the two ways out. */
  ghost predicate Ends(prog: seq<Instr>, base: nat, tapped: seq<u32>) {
    var n := |tapped|;
    && |prog| == base + n + 2
    && prog[base + n] == Stmt(RET_K, RET_ALLOW) && prog[base + n + 1] == Stmt(RET_K, RET_USER_NOTIF)
    && forall i :: 0 <= i < n ==> prog[base + i] == Jump(JEQ_K, tapped[i], ToU8(n - i), 0)
  }

  lemma ProgramEnds(tapped: seq<u32>, arch: u32)
    ensures Ends(Program(tapped, arch), |Guard(arch)| + 1, tapped)
  {}

  /** From the `i`-th test on, the filter notifies exactly for what is left of the reached calls. */
  lemma {:induction false} FromTest(prog: seq<Instr>, base: nat, tapped: seq<u32>, call: Syscall, i: nat)
    requires Ends(prog, base, tapped) && i <= |tapped|
    ensures var n := |tapped|; var from := if i + 255 < n then n - 255 else i;
            Exec(prog, call, base + i, call.nr)
              == Returns(if call.nr in tapped[from..] then RET_USER_NOTIF else RET_ALLOW)
    decreases |tapped| - i
  {
    var n := |tapped|;
    if i < n {
      assert prog[base + i] == Jump(JEQ_K, tapped[i], ToU8(n - i), 0);
      if call.nr != tapped[i] {
        FromTest(prog, base, tapped, call, i + 1);
        var from := if i + 255 < n then n - 255 else i;
        if from == i { assert tapped[i..] == [tapped[i]] + tapped[i + 1..]; }
      } else if n - i <= 255 {
        assert tapped[i] in tapped[i..];
      } else {
        // the truncated offset lands on an earlier test, never past the reached calls
        FromTest(prog, base, tapped, call, i + 1 + (n - i) % 0x100);
      }
    }
  }

  /** For every list and every call the program ends inside itself and notifies exactly when the
      architecture is native, or not guarded, and the call is among the last 255 listed. */
  lemma FilterExact(tapped: seq<u32>, arch: u32, call: Syscall)
    ensures Filter(Program(tapped, arch), call) ==
            Returns(if (arch == 0 || call.arch == arch) && call.nr in Reached(tapped) then RET_USER_NOTIF else RET_ALLOW)
  {
    var prog := Program(tapped, arch);
    var g := |Guard(arch)|;
    assert prog[g] == Stmt(LD_ABS, NR_OFFSET);
    ProgramEnds(tapped, arch);
    FromTest(prog, g + 1, tapped, call, 0);
    assert Exec(prog, call, g, 0) == Exec(prog, call, g, arch) == Exec(prog, call, g + 1, call.nr);
    if arch != 0 {
      assert prog[..3] == Guard(arch);
      assert prog[0] == Guard(arch)[0] && prog[1] == Guard(arch)[1] && prog[2] == Guard(arch)[2];
      if call.arch == arch {
        assert Exec(prog, call, 1, call.arch) == Exec(prog, call, 3, call.arch);
      } else {
        assert Exec(prog, call, 1, call.arch) == Exec(prog, call, 2, call.arch);
      }
    }
  }

  /** What the tap is for. */
  predicate Wanted(tapped: seq<u32>, arch: u32, call: Syscall) {
    (arch == 0 || call.arch == arch) && call.nr in tapped
  }

  /** The filter taps what it should, and nothing else, exactly when every listed call occurs
      among the last 255; so any list of at most 255 is right. */
  lemma FilterCorrectIff(tapped: seq<u32>, arch: u32)
    ensures (forall x :: x in tapped ==> x in Reached(tapped)) <==>
            (forall call: Syscall :: Filter(Program(tapped, arch), call) ==
                                     Returns(if Wanted(tapped, arch, call) then RET_USER_NOTIF else RET_ALLOW))
    ensures |tapped| <= 255 ==> forall x :: x in tapped ==> x in Reached(tapped)
  {
    assert forall x :: x in Reached(tapped) ==> x in tapped;
    forall call: Syscall
      ensures Filter(Program(tapped, arch), call) ==
              Returns(if (arch == 0 || call.arch == arch) && call.nr in Reached(tapped) then RET_USER_NOTIF else RET_ALLOW)
    {
      FilterExact(tapped, arch, call);
    }
    if x :| x in tapped && x !in Reached(tapped) {
      var call := Syscall(x, arch);
      assert Wanted(tapped, arch, call);
      assert Filter(Program(tapped, arch), call) == Returns(RET_ALLOW);
    }
  }

  /** With 256 different calls the first is missed: its jump offset wraps to zero. */
  lemma LongListMisses()
    ensures var tapped := seq(256, i requires 0 <= i < 256 => i as u32);
            Wanted(tapped, 0, Syscall(0, 0)) && Filter(Program(tapped, 0), Syscall(0, 0)) == Returns(RET_ALLOW)
  {
    var tapped := seq(256, i requires 0 <= i < 256 => i as u32);
    assert tapped[0] == 0;
    FilterExact(tapped, 0, Syscall(0, 0));
    assert forall x :: x in Reached(tapped) ==> x > 0;
  }
}
