/** Random-access block files on both back ends over one model file system, command by command and over
    whole runs. */
module BlockFiles {
  import opened IoStatus
  import opened OneShot
  import opened TcpUtil
  import opened OpenFlags

  /* 64-bit offsets. */

  const DWORD: nat := 0x1_0000_0000

  /** The OVERLAPPED structure's offset fields. */
  class Overlapped {
    var offset: nat
    var offsetHigh: nat

    function Position(): nat
      reads this
    {
      Rejoin(offset, offsetHigh)
    }

    constructor ()
      ensures Position() == 0
    {
      offset, offsetHigh := 0, 0;
    }
  }

  function Low(offset: nat): nat { offset % DWORD }

  function High(offset: nat): nat { offset / DWORD }

  /** How the system reads the two fields. */
  function Rejoin(low: nat, high: nat): nat { high * DWORD + low }

  /** Both halves fit their DWORD and rejoin to the offset; conversely, splitting what two DWORDs rejoin to
      gives them back. */
  lemma SplitRoundTrip(offset: nat, low: nat, high: nat)
    requires offset < DWORD * DWORD && low < DWORD && high < DWORD
    ensures Low(offset) < DWORD && High(offset) < DWORD && Rejoin(Low(offset), High(offset)) == offset
    ensures Low(Rejoin(low, high)) == low && High(Rejoin(low, high)) == high
  {}

  method SetOverlapped(o: Overlapped, offset: nat)
    requires offset < DWORD * DWORD
    modifies o
    ensures o.offset < DWORD && o.offsetHigh < DWORD && o.Position() == offset
  {
    SplitRoundTrip(offset, 0, 0);
    o.offset := offset % DWORD;
    o.offsetHigh := offset / DWORD;
  }

  /* Commands. */

  /** The all-ones offset means "current position" to one system and "append" to the other. */
  const ALL_ONES: nat := DWORD * DWORD - 1
  const OFFSET_LIMIT: nat := 0x8000_0000_0000_0000
  type Offset = o: nat | o < ALL_ONES

  /** The most one Linux read or write moves (MAX_RW_COUNT). */
  const MAX_RW: nat := 0x7FFF_F000

  datatype State = State(files: Files, handles: Handles)

  datatype Command =
    | Open(path: Path, flags: bv32)
    | Read(h: nat, size: nat, offset: Offset)
    | Write(h: nat, data: seq<Byte>, offset: Offset)
    | Close(h: nat)

  /** What the caller sees. A failure's status is not compared, nor is the status a close reports: the Linux
      one is never IO_OK (IoStatus.StatusAwaitNeverOk). */
  datatype Reply = Done | Data(bytes: seq<Byte>) | Wrote(n: int) | Failed

  predicate IsOpen(s: State, h: nat) { h < |s.handles| && s.handles[h].Some? }

  predicate MayRead(s: State, h: nat) { IsOpen(s, h) && s.handles[h].value.canRead }

  predicate MayWrite(s: State, h: nat) { IsOpen(s, h) && s.handles[h].value.canWrite }

  function PathOf(s: State, h: nat): Path { if IsOpen(s, h) then s.handles[h].value.path else "" }

  function Contents(s: State, path: Path): seq<Byte> { if path in s.files then s.files[path] else [] }

  function Zeros(n: nat): seq<Byte> { seq(n, _ => 0) }

  /** The file after writing `data` at `offset`; a gap reads as zeros, and writing nothing changes nothing. */
  function Splice(file: seq<Byte>, data: seq<Byte>, offset: nat): seq<Byte> {
    if data == [] then file else
      var padded := if |file| < offset then file + Zeros(offset - |file|) else file;
      padded[..offset] + data + (if offset + |data| < |padded| then padded[offset + |data|..] else [])
  }

  function Opened(s: State, path: Path, flags: bv32, o: Outcome): (State, Reply) {
    if o.Refused? then (s, Failed)
    else (State(o.files, s.handles + [Some(Handle(path, o.canRead, o.canWrite, flags))]), Done)
  }

  function Closed(s: State, h: nat): State {
    if h < |s.handles| then s.(handles := s.handles[h := None]) else s
  }

  /** Bytes of the file from an offset on. */
  function Avail(file: seq<Byte>, offset: nat): nat { if offset < |file| then |file| - offset else 0 }

  function Slice(file: seq<Byte>, offset: nat, n: nat): seq<Byte> {
    if n <= Avail(file, offset) && n > 0 then file[offset..offset + n] else []
  }

  /* Linux: the SQE's length field is 32 bits wide; the CQE result goes through map_result. */

  const EBADF: int32 := 9
  const EINVAL: int32 := 22

  function LinuxRead(s: State, h: nat, size: nat, offset: Offset): Reply {
    var ok := MayRead(s, h);
    var file := Contents(s, PathOf(s, h));
    var n := Min(Min(size % DWORD, MAX_RW), Avail(file, offset));
    var res: int32 := if !ok then -EBADF else if offset >= OFFSET_LIMIT then -EINVAL else n as int32;
    var op := MapResult(res);
    if op.Success() then Data(Slice(file, offset, op.Result() as int)) else Failed
  }

  function LinuxWrite(s: State, h: nat, data: seq<Byte>, offset: Offset): (State, Reply) {
    var ok := MayWrite(s, h);
    var path := PathOf(s, h);
    var n := Min(|data| % DWORD, MAX_RW);
    var res: int32 := if !ok then -EBADF else if offset >= OFFSET_LIMIT then -EINVAL else n as int32;
    var op := MapResult(res);
    if op.Success() then
      (s.(files := s.files[path := Splice(Contents(s, path), data[..n], offset)]), Wrote(op.Result() as int))
    else (s, Failed)
  }

  /* NTOS: the length is cast to DWORD, the offset split and rejoined, and the callback's code and count go
     through NtosResult. A read that starts at or behind the end of the file fails with ERROR_HANDLE_EOF. */

  const ERROR_INVALID_HANDLE: nat := 6
  const ERROR_ACCESS_DENIED: nat := 5
  const ERROR_HANDLE_EOF: nat := 38
  const ERROR_INVALID_PARAMETER: nat := 87

  function NtosCode(s: State, h: nat, allowed: bool, position: nat): nat {
    if !IsOpen(s, h) then ERROR_INVALID_HANDLE
    else if !allowed then ERROR_ACCESS_DENIED
    else if position >= OFFSET_LIMIT then ERROR_INVALID_PARAMETER
    else 0
  }

  function NtosRead(s: State, h: nat, size: nat, offset: Offset): Reply {
    var position := Rejoin(Low(offset), High(offset));
    var file := Contents(s, PathOf(s, h));
    var n := Min(size % DWORD, Avail(file, position));
    var code := NtosCode(s, h, MayRead(s, h), position);
    var eof := size % DWORD > 0 && position >= |file|;
    var op := NtosResult(Unlisting, if code == 0 && eof then ERROR_HANDLE_EOF else code, if code == 0 then n else 0);
    if op.Success() then Data(Slice(file, position, op.Result() as int)) else Failed
  }

  function NtosWrite(s: State, h: nat, data: seq<Byte>, offset: Offset): (State, Reply) {
    var position := Rejoin(Low(offset), High(offset));
    var path := PathOf(s, h);
    var n := |data| % DWORD;
    var code := NtosCode(s, h, MayWrite(s, h), position);
    var op := NtosResult(Unlisting, code, if code == 0 then n else 0);
    (if code == 0 then s.(files := s.files[path := Splice(Contents(s, path), data[..n], position)]) else s,
     if op.Success() then Wrote(op.Result() as int) else Failed)
  }

  function LinuxStep(s: State, c: Command, rule: TruncRule): (State, Reply) {
    match c
    case Open(path, flags) => Opened(s, path, flags, LinuxOpen(s.files, path, flags, rule))
    case Read(h, size, offset) => (s, LinuxRead(s, h, size, offset))
    case Write(h, data, offset) => LinuxWrite(s, h, data, offset)
    case Close(h) => (Closed(s, h), Done)
  }

  function NtosStep(s: State, c: Command): (State, Reply) {
    match c
    case Open(path, flags) => Opened(s, path, flags, NtosOpen(s.files, s.handles, path, flags))
    case Read(h, size, offset) => (s, NtosRead(s, h, size, offset))
    case Write(h, data, offset) => NtosWrite(s, h, data, offset)
    case Close(h) => (Closed(s, h), Done)
  }

  /* The flat file: reads and writes with direct offsets, no split and no status codes. */

  predicate Reads(s: State, h: nat, offset: Offset) { MayRead(s, h) && offset < OFFSET_LIMIT }

  predicate Writes(s: State, h: nat, offset: Offset) { MayWrite(s, h) && offset < OFFSET_LIMIT }

  /** A read of nothing, or of what there is from the offset on if that is anything and fits an int32. */
  function FlatRead(s: State, h: nat, size: nat, offset: Offset): Reply {
    var file := Contents(s, PathOf(s, h));
    var n := Min(size % DWORD, Avail(file, offset));
    if !Reads(s, h, offset) || (size % DWORD > 0 && n == 0) || n > INT32_MAX then Failed
    else Data(Slice(file, offset, n))
  }

  /** A write always takes effect; its count is reported if it fits an int32. */
  function FlatWrite(s: State, h: nat, data: seq<Byte>, offset: Offset): (State, Reply) {
    var path, n := PathOf(s, h), |data| % DWORD;
    if !Writes(s, h, offset) then (s, Failed)
    else (s.(files := s.files[path := Splice(Contents(s, path), data[..n], offset)]),
          if n > INT32_MAX then Failed else Wrote(n))
  }

  function FlatStep(s: State, c: Command): (State, Reply) {
    match c
    case Open(path, flags) => Opened(s, path, flags, NtosOpen(s.files, s.handles, path, flags))
    case Read(h, size, offset) => (s, FlatRead(s, h, size, offset))
    case Write(h, data, offset) => FlatWrite(s, h, data, offset)
    case Close(h) => (Closed(s, h), Done)
  }

  /* Agreement. */

  /** A read both systems serve alike: refused by both, empty, or starting before the end of the file and
      moving no more than Linux moves at once. */
  predicate ReadIsPortable(s: State, h: nat, size: nat, offset: Offset) {
    Reads(s, h, offset) && size % DWORD > 0 ==>
      var avail := Avail(Contents(s, PathOf(s, h)), offset);
      0 < avail && Min(size % DWORD, avail) <= MAX_RW
  }

  predicate WriteIsPortable(s: State, h: nat, data: seq<Byte>, offset: Offset) {
    Writes(s, h, offset) ==> |data| % DWORD <= MAX_RW
  }

  lemma LinuxReadIs(s: State, h: nat, size: nat, offset: Offset)
    ensures LinuxRead(s, h, size, offset) ==
            if !Reads(s, h, offset) then Failed
            else var file := Contents(s, PathOf(s, h));
                 Data(Slice(file, offset, Min(Min(size % DWORD, MAX_RW), Avail(file, offset))))
  {
    FailureNeverBecomesSuccess(-EBADF);
    FailureNeverBecomesSuccess(-EINVAL);
    hide Slice, Contents, MapError;
  }

  lemma NtosReadIsFlat(s: State, h: nat, size: nat, offset: Offset)
    ensures NtosRead(s, h, size, offset) == FlatRead(s, h, size, offset)
  {
    SplitRoundTrip(offset, 0, 0);
    hide Slice, Contents, Low, High, Rejoin;
  }

  lemma SliceLength(file: seq<Byte>, offset: nat, n: nat)
    requires n <= Avail(file, offset)
    ensures |Slice(file, offset, n)| == n
  {}

  /** A read gives the same bytes on both systems exactly when it is portable. */
  lemma ReadAgreesIff(s: State, h: nat, size: nat, offset: Offset)
    ensures LinuxRead(s, h, size, offset) == NtosRead(s, h, size, offset) <==> ReadIsPortable(s, h, size, offset)
  {
    LinuxReadIs(s, h, size, offset);
    NtosReadIsFlat(s, h, size, offset);
    hide LinuxRead, NtosRead, Contents;
    if Reads(s, h, offset) {
      var file := Contents(s, PathOf(s, h));
      SliceLength(file, offset, Min(Min(size % DWORD, MAX_RW), Avail(file, offset)));
      SliceLength(file, offset, Min(size % DWORD, Avail(file, offset)));
    }
  }

  lemma LinuxWriteIs(s: State, h: nat, data: seq<Byte>, offset: Offset)
    ensures LinuxWrite(s, h, data, offset) ==
            if !Writes(s, h, offset) then (s, Failed)
            else var path, n := PathOf(s, h), Min(|data| % DWORD, MAX_RW);
                 (s.(files := s.files[path := Splice(Contents(s, path), data[..n], offset)]), Wrote(n))
  {
    FailureNeverBecomesSuccess(-EBADF);
    FailureNeverBecomesSuccess(-EINVAL);
    hide Splice, Contents, MapError;
  }

  lemma NtosWriteIsFlat(s: State, h: nat, data: seq<Byte>, offset: Offset)
    ensures NtosWrite(s, h, data, offset) == FlatWrite(s, h, data, offset)
  {
    SplitRoundTrip(offset, 0, 0);
    hide Splice, Contents, Low, High, Rejoin;
  }

  /** A write leaves the same files and reports the same count exactly when it is portable. */
  lemma WriteAgreesIff(s: State, h: nat, data: seq<Byte>, offset: Offset)
    ensures LinuxWrite(s, h, data, offset) == NtosWrite(s, h, data, offset) <==> WriteIsPortable(s, h, data, offset)
  {
    LinuxWriteIs(s, h, data, offset);
    NtosWriteIsFlat(s, h, data, offset);
    hide LinuxWrite, NtosWrite, Contents, Splice;
  }

  predicate Portable(s: State, c: Command) {
    match c
    case Open(path, flags) => OpenIsPortable(s.files, s.handles, path, flags)
    case Read(h, size, offset) => ReadIsPortable(s, h, size, offset)
    case Write(h, data, offset) => WriteIsPortable(s, h, data, offset)
    case Close(h) => true
  }

  lemma OpenedTells(s: State, path: Path, flags: bv32, o: Outcome, o': Outcome)
    ensures Opened(s, path, flags, o) == Opened(s, path, flags, o') <==> o == o'
  {
    if !o.Refused? && !o'.Refused? {
      var h := |s.handles|;
      assert Opened(s, path, flags, o).0.handles[h] == Some(Handle(path, o.canRead, o.canWrite, flags));
      assert Opened(s, path, flags, o').0.handles[h] == Some(Handle(path, o'.canRead, o'.canWrite, flags));
    }
  }

  /** One command: the new state and the reply are the same on both systems, under every choice POSIX
      leaves open, exactly when the command is portable. */
  lemma StepAgreesIff(s: State, c: Command)
    ensures (forall rule :: LinuxStep(s, c, rule) == NtosStep(s, c)) <==> Portable(s, c)
  {
    hide LinuxOpen, NtosOpen, Opened, LinuxRead, NtosRead, LinuxWrite, NtosWrite, OpenIsPortable, ReadIsPortable,
      WriteIsPortable;
    match c
    case Open(path, flags) =>
      OpenAgreesIff(s.files, s.handles, path, flags);
      forall rule ensures LinuxStep(s, c, rule) == NtosStep(s, c) <==>
                          LinuxOpen(s.files, path, flags, rule) == NtosOpen(s.files, s.handles, path, flags)
      {
        OpenedTells(s, path, flags, LinuxOpen(s.files, path, flags, rule), NtosOpen(s.files, s.handles, path, flags));
      }
    case Read(h, size, offset) =>
      ReadAgreesIff(s, h, size, offset);
      assert LinuxStep(s, c, Truncates) == NtosStep(s, c) <==> Portable(s, c);
    case Write(h, data, offset) =>
      WriteAgreesIff(s, h, data, offset);
      assert LinuxStep(s, c, Truncates) == NtosStep(s, c) <==> Portable(s, c);
    case Close(h) =>
  }

  lemma NtosStepIsFlat(s: State, c: Command)
    ensures NtosStep(s, c) == FlatStep(s, c)
  {
    hide NtosRead, NtosWrite, FlatRead, FlatWrite;
    match c
    case Read(h, size, offset) => NtosReadIsFlat(s, h, size, offset);
    case Write(h, data, offset) => NtosWriteIsFlat(s, h, data, offset);
    case _ =>
  }

  /* Runs. */

  /** The states and replies of a whole run. POSIX's open choice may differ from open to open. */
  function LinuxRun(s: State, cs: seq<Command>, rules: seq<TruncRule>): seq<(State, Reply)>
    requires |rules| == |cs|
    decreases |cs|
  {
    if cs == [] then [] else
      var r := LinuxStep(s, cs[0], rules[0]);
      [r] + LinuxRun(r.0, cs[1..], rules[1..])
  }

  function NtosRun(s: State, cs: seq<Command>): seq<(State, Reply)>
    decreases |cs|
  {
    if cs == [] then [] else
      var r := NtosStep(s, cs[0]);
      [r] + NtosRun(r.0, cs[1..])
  }

  function FlatRun(s: State, cs: seq<Command>): seq<(State, Reply)>
    decreases |cs|
  {
    if cs == [] then [] else
      var r := FlatStep(s, cs[0]);
      [r] + FlatRun(r.0, cs[1..])
  }

  /** Every run of the NTOS back end, with its split offsets, narrowed counts and callback codes, is the run of
      the flat file with direct 64-bit offsets. */
  lemma {:induction false} NtosRunIsFlat(s: State, cs: seq<Command>)
    ensures NtosRun(s, cs) == FlatRun(s, cs)
    decreases |cs|
  {
    hide NtosStep, FlatStep;
    if cs != [] {
      NtosStepIsFlat(s, cs[0]);
      NtosRunIsFlat(FlatStep(s, cs[0]).0, cs[1..]);
    }
  }

  /** Each command is portable in the state in which the run issues it. */
  predicate RunIsPortable(s: State, cs: seq<Command>)
    decreases |cs|
  {
    cs == [] || (Portable(s, cs[0]) && RunIsPortable(NtosStep(s, cs[0]).0, cs[1..]))
  }

  lemma {:induction false} PortableRunsAgree(s: State, cs: seq<Command>, rules: seq<TruncRule>)
    requires |rules| == |cs| && RunIsPortable(s, cs)
    ensures LinuxRun(s, cs, rules) == NtosRun(s, cs)
    decreases |cs|
  {
    hide LinuxStep, NtosStep, Portable;
    if cs != [] {
      StepAgreesIff(s, cs[0]);
      PortableRunsAgree(NtosStep(s, cs[0]).0, cs[1..], rules[1..]);
    }
  }

  lemma {:induction false} OtherRunsDiffer(s: State, cs: seq<Command>) returns (rules: seq<TruncRule>)
    requires !RunIsPortable(s, cs)
    ensures |rules| == |cs| && LinuxRun(s, cs, rules) != NtosRun(s, cs)
    decreases |cs|
  {
    hide LinuxStep, NtosStep, Portable;
    StepAgreesIff(s, cs[0]);
    if Portable(s, cs[0]) {
      var rest := OtherRunsDiffer(NtosStep(s, cs[0]).0, cs[1..]);
      rules := [Truncates] + rest;
      var a, b := LinuxRun(s, cs, rules), NtosRun(s, cs);
      assert rules[1..] == rest;
      assert a[1..] == LinuxRun(NtosStep(s, cs[0]).0, cs[1..], rest) && b[1..] == NtosRun(NtosStep(s, cs[0]).0, cs[1..]);
    } else {
      var rule :| LinuxStep(s, cs[0], rule) != NtosStep(s, cs[0]);
      rules := seq(|cs|, _ => rule);
      assert LinuxRun(s, cs, rules)[0] != NtosRun(s, cs)[0];
    }
  }

  /** Back-end agreement over runs, from any files and any handles: the same opens succeed, the same bytes are
      read and the same files result, at every point of the run and under every choice POSIX leaves open,
      exactly when each command is portable where it is issued. */
  lemma BackendsAgreeIff(s: State, cs: seq<Command>)
    ensures (forall rules :: |rules| == |cs| ==> LinuxRun(s, cs, rules) == NtosRun(s, cs)) <==> RunIsPortable(s, cs)
  {
    hide LinuxRun, NtosRun, RunIsPortable;
    if RunIsPortable(s, cs) {
      forall rules: seq<TruncRule> | |rules| == |cs| ensures LinuxRun(s, cs, rules) == NtosRun(s, cs) {
        PortableRunsAgree(s, cs, rules);
      }
    } else {
      var rules := OtherRunsDiffer(s, cs);
    }
  }

  /** What a write leaves in the file: the data at its offset, zeros in a gap, everything else as it was. */
  lemma SpliceAt(file: seq<Byte>, data: seq<Byte>, offset: nat, i: nat)
    requires data != [] && i < |Splice(file, data, offset)|
    ensures |Splice(file, data, offset)| == if offset + |data| > |file| then offset + |data| else |file|
    ensures Splice(file, data, offset)[i] ==
            if offset <= i < offset + |data| then data[i - offset] else if i < |file| then file[i] else 0
  {}

  /** The data at its offset, zeros in a gap, everything else as it was. */
  ghost predicate Overwrites(file': seq<Byte>, file: seq<Byte>, data: seq<Byte>, offset: nat) {
    && |file'| == (if offset + |data| > |file| then offset + |data| else |file|)
    && forall i :: 0 <= i < |file'| ==>
         file'[i] == if offset <= i < offset + |data| then data[i - offset] else if i < |file| then file[i] else 0
  }

  lemma SpliceOverwrites(file: seq<Byte>, data: seq<Byte>, offset: nat)
    requires data != []
    ensures Overwrites(Splice(file, data, offset), file, data, offset)
  {
    var file' := Splice(file, data, offset);
    assert |file'| > 0;
    SpliceAt(file, data, offset, 0);
    forall i | 0 <= i < |file'|
      ensures file'[i] == if offset <= i < offset + |data| then data[i - offset] else if i < |file| then file[i] else 0
    {
      SpliceAt(file, data, offset, i);
    }
  }

  /** What the file has from a position on. */
  function After(file: seq<Byte>, at: nat): seq<Byte> { if at < |file| then file[at..] else [] }

  lemma OverwrittenTail(file': seq<Byte>, file: seq<Byte>, data: seq<Byte>, offset: nat)
    requires data != [] && Overwrites(file', file, data, offset)
    ensures offset < |file'| && file'[offset..] == data + After(file, offset + |data|)
  {
    var tail := data + After(file, offset + |data|);
    assert |tail| == |file'| - offset;
    forall i | 0 <= i < |tail| ensures file'[offset..][i] == tail[i] {}
  }

  lemma SpliceReads(file: seq<Byte>, data: seq<Byte>, offset: nat)
    requires data != []
    ensures var file' := Splice(file, data, offset);
            offset < |file'| && file'[offset..] == data + After(file, offset + |data|)
  {
    SpliceOverwrites(file, data, offset);
    hide Splice;
    OverwrittenTail(Splice(file, data, offset), file, data, offset);
  }

  function Take(b: seq<Byte>, n: nat): seq<Byte> { b[..Min(n, |b|)] }

  lemma SliceIsTake(file: seq<Byte>, offset: nat, n: nat)
    requires offset < |file| && n > 0
    ensures Slice(file, offset, Min(n, Avail(file, offset))) == Take(file[offset..], n)
    ensures 0 < Avail(file, offset)
  {}

  /** A read that starts inside the file returns, on either system, what there is up to its size. */
  lemma ReadIsTake(s: State, h: nat, size: nat, offset: Offset)
    requires Reads(s, h, offset) && offset < |Contents(s, PathOf(s, h))| && 0 < size <= MAX_RW
    ensures var file := Contents(s, PathOf(s, h));
            && LinuxRead(s, h, size, offset) == Data(Take(file[offset..], size))
            && NtosRead(s, h, size, offset) == Data(Take(file[offset..], size))
  {
    hide LinuxRead, NtosRead, Slice, Take, Contents, PathOf, MayRead;
    var file := Contents(s, PathOf(s, h));
    SliceIsTake(file, offset, size);
    LinuxReadIs(s, h, size, offset);
    NtosReadIsFlat(s, h, size, offset);
    assert size % DWORD == size;
    hide Avail;
  }

  /** A portable write of all its data. */
  lemma WriteIsSplice(s: State, h: nat, data: seq<Byte>, offset: Offset)
    requires Writes(s, h, offset) && |data| <= MAX_RW
    ensures var path := PathOf(s, h);
            && NtosWrite(s, h, data, offset) ==
               (s.(files := s.files[path := Splice(Contents(s, path), data, offset)]), Wrote(|data|))
            && LinuxWrite(s, h, data, offset) == NtosWrite(s, h, data, offset)
  {
    assert data[..|data|] == data && |data| % DWORD == |data|;
    WriteAgreesIff(s, h, data, offset);
    NtosWriteIsFlat(s, h, data, offset);
    hide LinuxWrite, NtosWrite, Splice, Contents, PathOf, MayWrite;
  }

  /** What one handle writes, another reads back, on either system: a read of any size at the offset of a
      portable write returns the data, cut off at that size or followed by what the file has behind it. */
  lemma ReadBack(s: State, h: nat, h': nat, data: seq<Byte>, offset: Offset, size: nat)
    requires Writes(s, h, offset) && Reads(s, h', offset) && PathOf(s, h') == PathOf(s, h)
    requires 0 < |data| <= MAX_RW && 0 < size <= MAX_RW
    ensures var back := Data(Take(data + After(Contents(s, PathOf(s, h)), offset + |data|), size));
            && LinuxWrite(s, h, data, offset) == NtosWrite(s, h, data, offset)
            && var (s1, r1) := NtosWrite(s, h, data, offset);
               r1 == Wrote(|data|) && LinuxRead(s1, h', size, offset) == back && NtosRead(s1, h', size, offset) == back
  {
    var path := PathOf(s, h);
    WriteIsSplice(s, h, data, offset);
    var s1 := s.(files := s.files[path := Splice(Contents(s, path), data, offset)]);
    assert Reads(s1, h', offset) && PathOf(s1, h') == path;
    assert Contents(s1, path) == Splice(Contents(s, path), data, offset);
    hide LinuxWrite, NtosWrite, LinuxRead, NtosRead, Splice, Take, After, Contents, PathOf, MayRead, MayWrite;
    SpliceReads(Contents(s, path), data, offset);
    ReadIsTake(s1, h', size, offset);
  }

  /* What each command does, told by the files and handles before it. */

  /** A portable open that is not refused appends a handle with just the rights asked for, on the file as it was or
      cut; one that is refused changes nothing. */
  lemma OpenDoes(s: State, path: Path, flags: bv32, rule: TruncRule)
    requires Portable(s, Open(path, flags))
    ensures LinuxStep(s, Open(path, flags), rule) == NtosStep(s, Open(path, flags))
    ensures var (s', r) := NtosStep(s, Open(path, flags));
            if RefusedByFlags(s.files, path, flags) then s' == s && r == Failed
            else
              && r == Done
              && s'.handles == s.handles + [Some(Handle(path, Has(flags, F_READ), Has(flags, F_WRITE), flags))]
              && s'.files == s.files[path := if path in s.files && !Has(flags, F_TRUNC) then s.files[path] else []]
  {
    StepAgreesIff(s, Open(path, flags));
    NtosOpenMeans(s.files, s.handles, path, flags);
    hide NtosOpen, LinuxOpen, Has;
    var o := NtosOpen(s.files, s.handles, path, flags);
    if !RefusedByFlags(s.files, path, flags) {
      SameButOne(o.files, s.files, path);
    }
  }

  lemma SameButOne(m: Files, m': Files, path: Path)
    requires path in m && m - {path} == m' - {path}
    ensures m == m'[path := m[path]]
  {
    assert forall p :: p in m && p != path ==> p in m - {path};
    assert forall p :: p in m' && p != path ==> p in m' - {path};
    forall p | p in m && p != path ensures p in m' && m[p] == m'[p] {
      assert (m - {path})[p] == (m' - {path})[p];
    }
  }

  /** Closing a handle takes just this handle out of use, on both systems. */
  lemma CloseDoes(s: State, h: nat, rule: TruncRule)
    ensures LinuxStep(s, Close(h), rule) == NtosStep(s, Close(h))
    ensures var s' := NtosStep(s, Close(h)).0;
            && !IsOpen(s', h) && s'.files == s.files && |s'.handles| == |s.handles|
            && forall i :: 0 <= i < |s.handles| && i != h ==> s'.handles[i] == s.handles[i]
  {}

  /** A portable write through a handle that may write changes just the handle's file, and there just the bytes it
      is for; any other write changes nothing. */
  lemma WriteDoes(s: State, h: nat, data: seq<Byte>, offset: Offset, rule: TruncRule)
    requires 0 < |data| <= MAX_RW
    ensures LinuxStep(s, Write(h, data, offset), rule) == NtosStep(s, Write(h, data, offset))
    ensures var (s', r) := NtosStep(s, Write(h, data, offset));
            if h >= |s.handles| || s.handles[h].None? || !s.handles[h].value.canWrite || offset >= OFFSET_LIMIT then
              s' == s && r == Failed
            else
              var path := s.handles[h].value.path;
              var file := if path in s.files then s.files[path] else [];
              && r == Wrote(|data|) && s'.handles == s.handles && path in s'.files
              && s'.files == s.files[path := s'.files[path]]
              && Overwrites(s'.files[path], file, data, offset)
  {
    StepAgreesIff(s, Write(h, data, offset));
    assert LinuxStep(s, Write(h, data, offset), rule) == NtosStep(s, Write(h, data, offset));
    NtosWriteIsFlat(s, h, data, offset);
    if Writes(s, h, offset) {
      WriteIsSplice(s, h, data, offset);
      SpliceOverwrites(Contents(s, PathOf(s, h)), data, offset);
    }
    hide NtosWrite, LinuxWrite, Splice, Overwrites;
  }

  /** A portable read through a handle that may read returns just the bytes of the handle's file from the offset on,
      as many as asked for or as there are; any other read that is not empty fails. No read changes anything. */
  lemma ReadDoes(s: State, h: nat, size: nat, offset: Offset, rule: TruncRule)
    requires 0 < size <= MAX_RW && Portable(s, Read(h, size, offset))
    ensures LinuxStep(s, Read(h, size, offset), rule) == NtosStep(s, Read(h, size, offset))
    ensures var (s', r) := NtosStep(s, Read(h, size, offset));
            s' == s &&
            if h >= |s.handles| || s.handles[h].None? || !s.handles[h].value.canRead || offset >= OFFSET_LIMIT then
              r == Failed
            else
              var path := s.handles[h].value.path;
              && path in s.files && offset < |s.files[path]|
              && r == Data(if size <= |s.files[path]| - offset then s.files[path][offset..offset + size]
                           else s.files[path][offset..])
  {
    StepAgreesIff(s, Read(h, size, offset));
    assert LinuxStep(s, Read(h, size, offset), rule) == NtosStep(s, Read(h, size, offset));
    NtosReadIsFlat(s, h, size, offset);
    if Reads(s, h, offset) {
      var file := Contents(s, PathOf(s, h));
      assert size % DWORD == size;
      ReadIsTake(s, h, size, offset);
      TakeIs(file[offset..], size);
    }
    hide NtosRead, LinuxRead, Take;
  }

  lemma TakeIs(b: seq<Byte>, n: nat)
    ensures Take(b, n) == if n <= |b| then b[..n] else b
  {}

  /* The echo test: write a file, close it, open it again and read it. */

  function Echo(path: Path, data: seq<Byte>, h: nat, size: nat): seq<Command> {
    [Open(path, F_WRITE | F_CREAT), Write(h, data, 0), Close(h), Open(path, F_READ), Read(h + 1, size, 0)]
  }

  predicate NotOpen(s: State, path: Path) {
    forall i :: 0 <= i < |s.handles| ==> !OpenOn(s.handles, i, path)
  }

  lemma NotOpenIsFree(s: State, path: Path, flags: bv32)
    requires NotOpen(s, path)
    ensures !Conflicts(s.files, s.handles, path, flags)
  {}

  /** The state and the contents after the opens of the echo. */
  lemma EchoOpens(s: State, path: Path, flags: bv32)
    requires NotOpen(s, path) && (flags == F_WRITE | F_CREAT || (flags == F_READ && path in s.files))
    ensures Portable(s, Open(path, flags))
    ensures NtosStep(s, Open(path, flags)) ==
            (State(s.files[path := Contents(s, path)],
                   s.handles + [Some(Handle(path, flags == F_READ, flags != F_READ, flags))]), Done)
  {
    NotOpenIsFree(s, path, flags);
    NtosOpenIs(s.files, s.handles, path, flags);
    AccessMeans(flags);
    DispositionMeans(flags);
    assert path in s.files ==> s.files[path := Contents(s, path)] == s.files;
    hide Conflicts, NotOpen, MakeDisposition, MakeAccess;
  }

  lemma {:induction false} RunOfFive(s: State, cs: seq<Command>, rules: seq<TruncRule>)
    requires |cs| == 5 == |rules|
    ensures var s1 := NtosStep(s, cs[0]).0;
            var s2 := NtosStep(s1, cs[1]).0;
            var s3 := NtosStep(s2, cs[2]).0;
            var s4 := NtosStep(s3, cs[3]).0;
            && |NtosRun(s, cs)| == 5 && NtosRun(s, cs)[4] == NtosStep(s4, cs[4])
            && ((Portable(s, cs[0]) && Portable(s1, cs[1]) && Portable(s2, cs[2]) && Portable(s3, cs[3]) &&
                 Portable(s4, cs[4])) ==> LinuxRun(s, cs, rules) == NtosRun(s, cs))
  {
    hide NtosStep, LinuxStep, Portable;
    var s1 := NtosStep(s, cs[0]).0;
    var s2 := NtosStep(s1, cs[1]).0;
    var s3 := NtosStep(s2, cs[2]).0;
    var s4 := NtosStep(s3, cs[3]).0;
    assert cs == [cs[0], cs[1], cs[2], cs[3], cs[4]];
    assert NtosRun(s4, [cs[4]]) == [NtosStep(s4, cs[4])];
    assert NtosRun(s3, [cs[3], cs[4]]) == [NtosStep(s3, cs[3])] + NtosRun(s4, [cs[4]]);
    assert NtosRun(s2, [cs[2], cs[3], cs[4]]) == [NtosStep(s2, cs[2])] + NtosRun(s3, [cs[3], cs[4]]);
    assert NtosRun(s1, cs[1..]) == [NtosStep(s1, cs[1])] + NtosRun(s2, [cs[2], cs[3], cs[4]]);
    if Portable(s, cs[0]) && Portable(s1, cs[1]) && Portable(s2, cs[2]) && Portable(s3, cs[3]) && Portable(s4, cs[4]) {
      assert RunIsPortable(s4, [cs[4]]);
      assert RunIsPortable(s3, [cs[3], cs[4]]);
      assert RunIsPortable(s2, [cs[2], cs[3], cs[4]]);
      assert RunIsPortable(s1, cs[1..]);
      PortableRunsAgree(s, cs, rules);
    }
  }

  /** Closing takes one's own handle, the last one opened, out of the way. */
  lemma ClosedIsNotOpen(s: State, k: Handle, path: Path)
    requires NotOpen(s, path)
    ensures NotOpen(s.(handles := s.handles + [None]), path)
    ensures Closed(s.(handles := s.handles + [Some(k)]), |s.handles|) == s.(handles := s.handles + [None])
  {
    assert (s.handles + [Some(k)])[|s.handles| := None] == s.handles + [None];
    forall i | 0 <= i < |s.handles| + 1 ensures !OpenOn(s.handles + [None], i, path) {
      assert i < |s.handles| ==> !OpenOn(s.handles, i, path);
    }
  }

  /** The writing half of the echo. */
  lemma EchoWrites(s: State, path: Path, data: seq<Byte>) returns (s1: State, s2: State, s3: State)
    requires NotOpen(s, path) && 0 < |data| <= MAX_RW
    ensures Portable(s, Open(path, F_WRITE | F_CREAT)) && s1 == NtosStep(s, Open(path, F_WRITE | F_CREAT)).0
    ensures Portable(s1, Write(|s.handles|, data, 0)) && s2 == NtosStep(s1, Write(|s.handles|, data, 0)).0
    ensures Portable(s2, Close(|s.handles|)) && s3 == NtosStep(s2, Close(|s.handles|)).0
    ensures NotOpen(s3, path) && |s3.handles| == |s.handles| + 1
    ensures path in s3.files && s3.files[path] == Splice(Contents(s, path), data, 0)
  {
    var h, flags := |s.handles|, F_WRITE | F_CREAT;
    var k := Handle(path, flags == F_READ, flags != F_READ, flags);
    EchoOpens(s, path, flags);
    hide Splice, NotOpen, NtosOpen, NtosWrite, OpenIsPortable;
    s1 := State(s.files[path := Contents(s, path)], s.handles + [Some(k)]);
    assert PathOf(s1, h) == path && Writes(s1, h, 0);
    WriteIsSplice(s1, h, data, 0);
    s2 := State(s1.files[path := Splice(Contents(s, path), data, 0)], s1.handles);
    ClosedIsNotOpen(State(s2.files, s.handles), k, path);
    s3 := Closed(s2, h);
    NotOpenOnFiles(s, s2.files, path);
  }

  lemma NotOpenOnFiles(s: State, files: Files, path: Path)
    requires NotOpen(s, path)
    ensures NotOpen(State(files, s.handles), path)
  {}

  /** The reading half. */
  lemma EchoReads(s: State, path: Path, size: nat) returns (s': State)
    requires NotOpen(s, path) && path in s.files && s.files[path] != [] && 0 < size <= MAX_RW
    ensures Portable(s, Open(path, F_READ)) && s' == NtosStep(s, Open(path, F_READ)).0
    ensures Portable(s', Read(|s.handles|, size, 0))
    ensures NtosStep(s', Read(|s.handles|, size, 0)).1 == Data(Take(s.files[path], size))
  {
    EchoOpens(s, path, F_READ);
    hide NotOpen, NtosOpen, NtosRead, LinuxRead, Take;
    s' := NtosStep(s, Open(path, F_READ)).0;
    var h := |s.handles|;
    assert PathOf(s', h) == path && Reads(s', h, 0) && Contents(s', PathOf(s', h)) == s.files[path];
    hide Contents, PathOf, MayRead;
    ReadIsTake(s', h, size, 0);
    assert s.files[path][0..] == s.files[path];
    assert NtosRead(s', h, size, 0) == Data(Take(s.files[path], size));
  }

  lemma TakesJustTheData(file: seq<Byte>, data: seq<Byte>, size: nat)
    requires size > |data|
    ensures Take(data + After(file, |data|), size) == data <==> |file| <= |data|
  {
    if |file| > |data| {
      assert |After(file, |data|)| > 0;
    }
  }

  /** Echo, for any data and any earlier contents: a file nobody has open is written, closed, opened again and
      read. Both systems return the data, cut off at the read's size or followed by what the file had behind it;
      so a read longer than the data returns just the data exactly if the file was no longer before. */
  lemma FileEcho(s: State, path: Path, data: seq<Byte>, size: nat, rules: seq<TruncRule>)
    requires NotOpen(s, path) && 0 < |data| <= MAX_RW && 0 < size <= MAX_RW && |rules| == 5
    ensures var cs := Echo(path, data, |s.handles|, size);
            && LinuxRun(s, cs, rules) == NtosRun(s, cs) && |NtosRun(s, cs)| == 5
            && NtosRun(s, cs)[4].1 == Data(Take(data + After(Contents(s, path), |data|), size))
            && (size > |data| ==> (NtosRun(s, cs)[4].1 == Data(data) <==> |Contents(s, path)| <= |data|))
  {
    hide NtosStep, Portable, Splice, NotOpen, LinuxRun, NtosRun, Take, After;
    var cs := Echo(path, data, |s.handles|, size);
    var file := Contents(s, path);
    var s1, s2, s3 := EchoWrites(s, path, data);
    SpliceReads(file, data, 0);
    assert Splice(file, data, 0)[0..] == Splice(file, data, 0);
    var s4 := EchoReads(s3, path, size);
    hide Contents;
    RunOfFive(s, cs, rules);
    if size > |data| {
      TakesJustTheData(file, data, size);
    }
  }
}
