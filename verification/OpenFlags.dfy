/** Opening a file: the Linux and the NTOS translation of the portable flag word, each interpreted by its
    own operating system's rules over a model file system of regular files. */
module OpenFlags {
  import opened OneShot
  import opened TcpUtil

  type Path = string
  type Files = map<Path, seq<Byte>>

  /* The portable flag word. */

  const F_READ: bv32 := 1
  const F_WRITE: bv32 := 2
  const F_CREAT: bv32 := 4
  const F_EXCL: bv32 := 8
  const F_TRUNC: bv32 := 16
  const F_EXLOCK: bv32 := 32

  predicate Has(flags: bv32, bit: bv32) { flags & bit != 0 }

  /** An open file: its rights, and the flag word it was opened with. */
  datatype Handle = Handle(path: Path, canRead: bool, canWrite: bool, flags: bv32)

  /** Handles in the order of their opens; a closed one is None. */
  type Handles = seq<Option<Handle>>

  /** What an open did: the files after it, and the rights of the handle. */
  datatype Outcome = Opened(files: Files, canRead: bool, canWrite: bool) | Refused

  /* Linux: flag_conv, then open(). */

  const O_RDONLY: bv32 := 0
  const O_WRONLY: bv32 := 1
  const O_RDWR: bv32 := 2
  const O_ACCMODE: bv32 := 3
  const O_CREAT: bv32 := 0x40
  const O_EXCL: bv32 := 0x80
  const O_TRUNC: bv32 := 0x200

  /** None is the IO_EACCES exception. */
  function FlagConv(flags: bv32): Option<bv32> {
    var read, write := Has(flags, F_READ), Has(flags, F_WRITE);
    if !read && !write then None else
      var mode := if read && write then O_RDWR else if read then O_RDONLY else O_WRONLY;
      var creat := if Has(flags, F_CREAT) then mode | O_CREAT else mode;
      var excl := if Has(flags, F_EXCL) then creat | O_EXCL else creat;
      Some(if Has(flags, F_TRUNC) then excl | O_TRUNC else excl)
  }

  /** What a system does with O_TRUNC on a file not opened for writing; POSIX.1-2017 open() leaves it
      undefined. */
  datatype TruncRule = Truncates | Ignores | Refuses

  /** open() in the System Interfaces volume of POSIX.1-2017, for regular files one may read and write, with
      the Linux rule that O_EXCL without O_CREAT is ignored. */
  function PosixOpen(files: Files, path: Path, oflags: bv32, rule: TruncRule): Outcome {
    var mode := oflags & O_ACCMODE;
    var canRead, canWrite := mode == O_RDONLY || mode == O_RDWR, mode == O_WRONLY || mode == O_RDWR;
    var undefined := Has(oflags, O_TRUNC) && !canWrite;
    if path in files then
      if Has(oflags, O_CREAT) && Has(oflags, O_EXCL) then Refused
      else if undefined && rule.Refuses? then Refused
      else
        var cut := Has(oflags, O_TRUNC) && (canWrite || rule.Truncates?);
        Opened(if cut then files[path := []] else files, canRead, canWrite)
    else if !Has(oflags, O_CREAT) || (undefined && rule.Refuses?) then Refused
    else Opened(files[path := []], canRead, canWrite)
  }

  function LinuxOpen(files: Files, path: Path, flags: bv32, rule: TruncRule): Outcome {
    var oflags := FlagConv(flags);
    if oflags.None? then Refused else PosixOpen(files, path, oflags.value, rule)
  }

  /* NTOS: the access, share and disposition words, then CreateFileW. */

  const GENERIC_READ: bv32 := 0x8000_0000
  const GENERIC_WRITE: bv32 := 0x4000_0000

  const FILE_SHARE_READ: bv32 := 1
  const FILE_SHARE_WRITE: bv32 := 2
  const FILE_SHARE_DELETE: bv32 := 4

  const CREATE_NEW: nat := 1
  const CREATE_ALWAYS: nat := 2
  const OPEN_EXISTING: nat := 3
  const OPEN_ALWAYS: nat := 4
  const TRUNCATE_EXISTING: nat := 5

  /** None is the IO_EACCES exception. */
  function MakeAccess(flags: bv32): Option<bv32> {
    var read, write := Has(flags, F_READ), Has(flags, F_WRITE);
    if !read && !write then None else
      var result := if read then GENERIC_READ else 0;
      Some(if write then result | GENERIC_WRITE else result)
  }

  /** The disposition switch; its empty default leaves 0, which is no disposition. */
  function MakeDisposition(flags: bv32): nat {
    var d := flags & (F_CREAT | F_EXCL | F_TRUNC);
    if d == 0 || d == F_EXCL then OPEN_EXISTING
    else if d == F_CREAT then OPEN_ALWAYS
    else if d == F_CREAT | F_EXCL || d == F_CREAT | F_TRUNC | F_EXCL then CREATE_NEW
    else if d == F_TRUNC || d == F_TRUNC | F_EXCL then TRUNCATE_EXISTING
    else if d == F_CREAT | F_TRUNC then CREATE_ALWAYS
    else 0
  }

  function MakeShare(flags: bv32): bv32 {
    if Has(flags, F_EXLOCK) then 0 else FILE_SHARE_READ | FILE_SHARE_WRITE | FILE_SHARE_DELETE
  }

  /** An open handle and a new open do not get along: one has a right that the other does not share. */
  predicate Clashes(k: Handle, access: bv32, share: bv32) {
    var shared := MakeShare(k.flags);
    || (Has(access, GENERIC_READ) && !Has(shared, FILE_SHARE_READ))
    || (Has(access, GENERIC_WRITE) && !Has(shared, FILE_SHARE_WRITE))
    || (k.canRead && !Has(share, FILE_SHARE_READ))
    || (k.canWrite && !Has(share, FILE_SHARE_WRITE))
  }

  predicate OpenOn(handles: Handles, i: nat, path: Path) {
    i < |handles| && handles[i].Some? && handles[i].value.path == path
  }

  /** CreateFileW on regular files. TRUNCATE_EXISTING demands GENERIC_WRITE. */
  function CreateFileW(files: Files, handles: Handles, path: Path, access: bv32, share: bv32, disposition: nat): Outcome {
    var canRead, canWrite := Has(access, GENERIC_READ), Has(access, GENERIC_WRITE);
    var exists_ := path in files;
    if exists_ && exists i :: 0 <= i < |handles| && OpenOn(handles, i, path) && Clashes(handles[i].value, access, share)
    then Refused
    else if disposition == CREATE_NEW && !exists_ then Opened(files[path := []], canRead, canWrite)
    else if disposition == CREATE_ALWAYS then Opened(files[path := []], canRead, canWrite)
    else if disposition == OPEN_EXISTING && exists_ then Opened(files, canRead, canWrite)
    else if disposition == OPEN_ALWAYS then Opened(if exists_ then files else files[path := []], canRead, canWrite)
    else if disposition == TRUNCATE_EXISTING && exists_ && canWrite then Opened(files[path := []], canRead, canWrite)
    else Refused
  }

  function NtosOpen(files: Files, handles: Handles, path: Path, flags: bv32): Outcome {
    var access := MakeAccess(flags);
    if access.None? then Refused
    else CreateFileW(files, handles, path, access.value, MakeShare(flags), MakeDisposition(flags))
  }

  /* What the words mean. */

  lemma FlagConvMeans(flags: bv32)
    ensures FlagConv(flags).Some? <==> Has(flags, F_READ) || Has(flags, F_WRITE)
    ensures FlagConv(flags).Some? ==>
              var o := FlagConv(flags).value;
              && (o & O_ACCMODE == O_RDONLY || o & O_ACCMODE == O_RDWR <==> Has(flags, F_READ))
              && (o & O_ACCMODE == O_WRONLY || o & O_ACCMODE == O_RDWR <==> Has(flags, F_WRITE))
              && (Has(o, O_CREAT) <==> Has(flags, F_CREAT)) && (Has(o, O_EXCL) <==> Has(flags, F_EXCL))
              && (Has(o, O_TRUNC) <==> Has(flags, F_TRUNC))
  {}

  lemma AccessMeans(flags: bv32)
    ensures MakeAccess(flags).Some? <==> Has(flags, F_READ) || Has(flags, F_WRITE)
    ensures MakeAccess(flags).Some? ==>
              && (Has(MakeAccess(flags).value, GENERIC_READ) <==> Has(flags, F_READ))
              && (Has(MakeAccess(flags).value, GENERIC_WRITE) <==> Has(flags, F_WRITE))
  {}

  /** The switch covers every flag word, whatever its other bits. */
  lemma DispositionMeans(flags: bv32)
    ensures MakeDisposition(flags) ==
            if Has(flags, F_CREAT) then
              if Has(flags, F_EXCL) then CREATE_NEW else if Has(flags, F_TRUNC) then CREATE_ALWAYS else OPEN_ALWAYS
            else if Has(flags, F_TRUNC) then TRUNCATE_EXISTING else OPEN_EXISTING
  {}

  /** F_TRUNC comes with F_WRITE, unless the open is refused for asking neither reading nor writing. */
  predicate TruncHasWrite(flags: bv32) {
    Has(flags, F_TRUNC) && Has(flags, F_READ) ==> Has(flags, F_WRITE)
  }

  /** A handle is exclusive against new opens that ask for any right, and a new exclusive open against handles
      that have any. */
  predicate Excludes(k: Handle, flags: bv32) {
    || (Has(k.flags, F_EXLOCK) && (Has(flags, F_READ) || Has(flags, F_WRITE)))
    || (Has(flags, F_EXLOCK) && (k.canRead || k.canWrite))
  }

  /** The file is open in a way that an open with these flags cannot share. Linux knows no such thing. */
  predicate Conflicts(files: Files, handles: Handles, path: Path, flags: bv32) {
    path in files && exists i :: 0 <= i < |handles| && OpenOn(handles, i, path) && Excludes(handles[i].value, flags)
  }

  lemma ShareMeans(k: Handle, flags: bv32)
    requires MakeAccess(flags).Some?
    ensures Clashes(k, MakeAccess(flags).value, MakeShare(flags)) <==> Excludes(k, flags)
  {
    AccessMeans(flags);
  }

  /** An open that both systems refuse before truncation or sharing matters, the file being there. */
  predicate RefusedAnyway(flags: bv32) {
    (!Has(flags, F_READ) && !Has(flags, F_WRITE)) || (Has(flags, F_CREAT) && Has(flags, F_EXCL))
  }

  /** An open that means the same to both systems: truncation comes with write access and no handle is in
      the way, or the open is refused before that matters. */
  predicate OpenIsPortable(files: Files, handles: Handles, path: Path, flags: bv32) {
    if path in files then
      RefusedAnyway(flags) || (TruncHasWrite(flags) && !Conflicts(files, handles, path, flags))
    else
      !Has(flags, F_CREAT) || TruncHasWrite(flags)
  }

  lemma NtosOpenIs(files: Files, handles: Handles, path: Path, flags: bv32)
    ensures Conflicts(files, handles, path, flags) ==> NtosOpen(files, handles, path, flags) == Refused
    ensures !Conflicts(files, handles, path, flags) ==>
              NtosOpen(files, handles, path, flags) == NtosOpen(files, [], path, flags)
  {
    hide Clashes, Excludes, MakeShare, MakeAccess, MakeDisposition, Has;
    if MakeAccess(flags).Some? {
      forall i | 0 <= i < |handles| && OpenOn(handles, i, path)
        ensures Clashes(handles[i].value, MakeAccess(flags).value, MakeShare(flags)) <==> Excludes(handles[i].value, flags)
      {
        ShareMeans(handles[i].value, flags);
      }
    }
  }

  /** Without handles in the way: agreement under every choice POSIX leaves to the system. */
  lemma UnsharedAgreesIff(files: Files, path: Path, flags: bv32)
    ensures (forall rule :: LinuxOpen(files, path, flags, rule) == NtosOpen(files, [], path, flags))
            <==> OpenIsPortable(files, [], path, flags)
  {
    FlagConvMeans(flags);
    AccessMeans(flags);
    DispositionMeans(flags);
    hide FlagConv, MakeAccess, MakeDisposition, MakeShare, Has;
    if !OpenIsPortable(files, [], path, flags) {
      assert LinuxOpen(files, path, flags, Refuses) == Refused;
      assert LinuxOpen(files, path, flags, Truncates).Opened?;
    }
  }

  /** Linux refuses an open of an existing file under every choice exactly when it is refused anyway. */
  lemma LinuxRefusesIff(files: Files, path: Path, flags: bv32)
    requires path in files
    ensures (forall rule :: LinuxOpen(files, path, flags, rule) == Refused) <==> RefusedAnyway(flags)
  {
    FlagConvMeans(flags);
    hide FlagConv, Has;
    assert LinuxOpen(files, path, flags, Truncates) == Refused <==> RefusedAnyway(flags);
  }

  /** The two encodings agree on an open, whatever is open already and under every choice POSIX leaves to the
      system, exactly when it is portable. */
  lemma OpenAgreesIff(files: Files, handles: Handles, path: Path, flags: bv32)
    ensures (forall rule :: LinuxOpen(files, path, flags, rule) == NtosOpen(files, handles, path, flags))
            <==> OpenIsPortable(files, handles, path, flags)
  {
    hide LinuxOpen, NtosOpen, Has, OpenOn, Excludes;
    NtosOpenIs(files, handles, path, flags);
    if Conflicts(files, handles, path, flags) {
      LinuxRefusesIff(files, path, flags);
    } else {
      UnsharedAgreesIff(files, path, flags);
    }
  }

  /** Over all files that are not open: the flag words on which the systems agree in every state. */
  lemma FlagsAgreeIff(flags: bv32)
    ensures (forall files, path, rule :: LinuxOpen(files, path, flags, rule) == NtosOpen(files, [], path, flags))
            <==> TruncHasWrite(flags)
  {
    hide LinuxOpen, NtosOpen, Has;
    if TruncHasWrite(flags) {
      forall files, path, rule ensures LinuxOpen(files, path, flags, rule) == NtosOpen(files, [], path, flags) {
        OpenAgreesIff(files, [], path, flags);
      }
    } else {
      var files: Files := if Has(flags, F_CREAT) then map[] else map["f" := []];
      OpenAgreesIff(files, [], "f", flags);
    }
  }

  /* What an open does, told by the portable flags alone. */

  /** Both systems refuse these, whatever the system's rule on truncation and sharing. */
  predicate RefusedByFlags(files: Files, path: Path, flags: bv32) {
    || (!Has(flags, F_READ) && !Has(flags, F_WRITE))
    || (path in files && Has(flags, F_CREAT) && Has(flags, F_EXCL))
    || (path !in files && !Has(flags, F_CREAT))
  }

  /** The handle has just the rights asked for; the file keeps its contents exactly if it was there and is not cut;
      no other file is touched. */
  ghost predicate OpensTo(o: Outcome, files: Files, path: Path, flags: bv32, cut: bool) {
    && o.Opened? && o.canRead == Has(flags, F_READ) && o.canWrite == Has(flags, F_WRITE)
    && path in o.files && o.files[path] == (if path in files && !cut then files[path] else [])
    && o.files - {path} == files - {path}
  }

  lemma LinuxOpenMeans(files: Files, path: Path, flags: bv32, rule: TruncRule)
    ensures var o := LinuxOpen(files, path, flags, rule);
            var readOnlyCut := Has(flags, F_TRUNC) && !Has(flags, F_WRITE);
            if RefusedByFlags(files, path, flags) || (readOnlyCut && rule.Refuses?) then o == Refused
            else OpensTo(o, files, path, flags, Has(flags, F_TRUNC) && (!readOnlyCut || rule.Truncates?))
  {
    FlagConvMeans(flags);
    hide FlagConv, Has;
    assert files[path := []] - {path} == files - {path};
  }

  lemma NtosOpenMeans(files: Files, handles: Handles, path: Path, flags: bv32)
    ensures var o := NtosOpen(files, handles, path, flags);
            if RefusedByFlags(files, path, flags) || Conflicts(files, handles, path, flags)
               || (Has(flags, F_TRUNC) && !Has(flags, F_WRITE) && !Has(flags, F_CREAT)) then o == Refused
            else OpensTo(o, files, path, flags, Has(flags, F_TRUNC))
  {
    NtosOpenIs(files, handles, path, flags);
    AccessMeans(flags);
    DispositionMeans(flags);
    hide MakeAccess, MakeDisposition, MakeShare, Has, Conflicts;
    assert files[path := []] - {path} == files - {path};
  }
}
