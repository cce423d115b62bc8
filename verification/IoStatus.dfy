/** Status codes, the packed `IOResult` and the Linux errno translation.
    A status enumerator is its ordinal in the declaration order of `Status`. */
module IoStatus {
  import opened OneShot

  newtype int32 = x: int | -0x8000_0000 <= x < 0x8000_0000

  const INT32_MAX: int := 0x7FFF_FFFF

  /** An enumeration value; the enumerators are IO_OK .. IO_ESOCKTNOSUPPORT. */
  type Status = int

  const IO_OK: Status := 0
  const IO_EACCES: Status := 1
  const IO_EADDRINUSE: Status := 2
  const IO_EADDRNOTAVAIL: Status := 3
  const IO_EAFNOSUPPORT: Status := 4
  const IO_EAGAIN: Status := 5
  const IO_EALREADY: Status := 6
  const IO_EBADF: Status := 7
  const IO_EBUSY: Status := 8
  const IO_ECANCELED: Status := 9
  const IO_ECONNABORTED: Status := 11
  const IO_ECONNREFUSED: Status := 12
  const IO_ECONNRESET: Status := 13
  const IO_EDESTADDRREQ: Status := 14
  const IO_EEXIST: Status := 15
  const IO_EFAULT: Status := 16
  const IO_E2BIG: Status := 17
  const IO_EHOSTUNREACH: Status := 18
  const IO_EINTR: Status := 19
  const IO_EINVAL: Status := 20
  const IO_EIO: Status := 21
  const IO_EISCONN: Status := 22
  const IO_EISDIR: Status := 23
  const IO_ELOOP: Status := 24
  const IO_EMFILE: Status := 25
  const IO_EMSGSIZE: Status := 26
  const IO_ENAMETOOLONG: Status := 27
  const IO_ENETDOWN: Status := 28
  const IO_ENETUNREACH: Status := 29
  const IO_ENFILE: Status := 30
  const IO_ENOBUFS: Status := 31
  const IO_ENODEV: Status := 32
  const IO_ENOENT: Status := 33
  const IO_ENOMEM: Status := 34
  const IO_ENONET: Status := 35
  const IO_ENOPROTOOPT: Status := 36
  const IO_ENOSPC: Status := 37
  const IO_ENOSYS: Status := 38
  const IO_ENOTCONN: Status := 39
  const IO_ENOTDIR: Status := 40
  const IO_ENOTEMPTY: Status := 41
  const IO_ENOTSOCK: Status := 42
  const IO_ENOTSUP: Status := 43
  const IO_EOVERFLOW: Status := 44
  const IO_EPERM: Status := 45
  const IO_EPIPE: Status := 46
  const IO_EPROTO: Status := 47
  const IO_EPROTONOSUPPORT: Status := 48
  const IO_EPROTOTYPE: Status := 49
  const IO_ERANGE: Status := 50
  const IO_EROFS: Status := 51
  const IO_ESHUTDOWN: Status := 52
  const IO_ESPIPE: Status := 53
  const IO_ESRCH: Status := 54
  const IO_ETIMEDOUT: Status := 55
  const IO_ETXTBSY: Status := 56
  const IO_EXDEV: Status := 57
  const IO_UNKNOWN: Status := 58
  const IO_EOF: Status := 59
  const IO_ENXIO: Status := 60
  const IO_EMLINK: Status := 61
  const IO_ENOTTY: Status := 62
  const IO_EILSEQ: Status := 64
  const IO_ESOCKTNOSUPPORT: Status := 65

  predicate IsEnumerator(s: Status) {
    IO_OK <= s <= IO_ESOCKTNOSUPPORT
  }

  /** The narrowing conversion int32_t(n): reduction modulo 2^32 into the signed range. */
  function ToInt32(n: int): (r: int32) {
    var low := n % 0x1_0000_0000;
    (if low < 0x8000_0000 then low else low - 0x1_0000_0000) as int32
  }

  /** A byte count, or a negated status, in one int32. */
  datatype IOResult = IOResult(value: int32) {

    static function FromStatus(s: Status): IOResult
      requires IsEnumerator(s)
    {
      IOResult((-s) as int32)
    }

    static function Of(s: Status, result: int32): IOResult
      requires IsEnumerator(s)
    {
      if s == IO_OK then IOResult(result) else IOResult((-s) as int32)
    }

    predicate Success() { value >= 0 }

    function Error(): Status { if Success() then IO_OK else -(value as int) }

    function Result(): int32 { value }
  }

  /** Linux5 `map_error`, over the Linux errno numbers (EOF is -1). */
  function MapError(sys: int): Status {
    match sys
    case 13 => IO_EACCES
    case 98 => IO_EADDRINUSE
    case 99 => IO_EADDRNOTAVAIL
    case 97 => IO_EAFNOSUPPORT
    case 11 => IO_EAGAIN
    case 114 => IO_EALREADY
    case 9 => IO_EBADF
    case 16 => IO_EBUSY
    case 125 => IO_ECANCELED
    case 103 => IO_ECONNABORTED
    case 111 => IO_ECONNREFUSED
    case 104 => IO_ECONNRESET
    case 89 => IO_EDESTADDRREQ
    case 17 => IO_EEXIST
    case 14 => IO_EFAULT
    case 7 => IO_E2BIG
    case 113 => IO_EHOSTUNREACH
    case 4 => IO_EINTR
    case 22 => IO_EINVAL
    case 5 => IO_EIO
    case 106 => IO_EISCONN
    case 21 => IO_EISDIR
    case 40 => IO_ELOOP
    case 24 => IO_EMFILE
    case 90 => IO_EMSGSIZE
    case 36 => IO_ENAMETOOLONG
    case 100 => IO_ENETDOWN
    case 101 => IO_ENETUNREACH
    case 23 => IO_ENFILE
    case 105 => IO_ENOBUFS
    case 19 => IO_ENODEV
    case 2 => IO_ENOENT
    case 12 => IO_ENOMEM
    case 64 => IO_ENONET
    case 92 => IO_ENOPROTOOPT
    case 28 => IO_ENOSPC
    case 38 => IO_ENOSYS
    case 107 => IO_ENOTCONN
    case 20 => IO_ENOTDIR
    case 39 => IO_ENOTEMPTY
    case 88 => IO_ENOTSOCK
    case 95 => IO_ENOTSUP
    case 75 => IO_EOVERFLOW
    case 1 => IO_EPERM
    case 32 => IO_EPIPE
    case 71 => IO_EPROTO
    case 93 => IO_EPROTONOSUPPORT
    case 91 => IO_EPROTOTYPE
    case 34 => IO_ERANGE
    case 30 => IO_EROFS
    case 108 => IO_ESHUTDOWN
    case 29 => IO_ESPIPE
    case 3 => IO_ESRCH
    case 110 => IO_ETIMEDOUT
    case 26 => IO_ETXTBSY
    case 18 => IO_EXDEV
    case -1 => IO_EOF
    case 6 => IO_ENXIO
    case 31 => IO_EMLINK
    case 25 => IO_ENOTTY
    case 84 => IO_EILSEQ
    case 94 => IO_ESOCKTNOSUPPORT
    case _ => IO_UNKNOWN
  }

  lemma MapErrorIsNeverOk(sys: int)
    ensures IsEnumerator(MapError(sys)) && MapError(sys) != IO_OK
  {}

  /** Linux5 `map_result`: the CQE result goes to MapError with its sign, as the code has it. */
  function MapResult(ret: int32): IOResult {
    if ret >= 0 then IOResult.Of(IO_OK, ret)
    else MapErrorIsNeverOk(ret as int); IOResult.FromStatus(MapError(ret as int))
  }

  /** What `map_result` would be if the errno were recovered from the negative result first. */
  function MapResultOfErrno(ret: int32): IOResult {
    if ret >= 0 then IOResult.Of(IO_OK, ret)
    else MapErrorIsNeverOk(-(ret as int)); IOResult.FromStatus(MapError(-(ret as int)))
  }

  /** Linux5 `IOAwait<Status>::await_resume`. */
  function ResumeStatus(ret: int32): Status {
    MapError(ret as int)
  }

  ghost predicate Translates(table: nat -> Status) {
    table(0) == IO_OK && forall code: nat :: code != 0 ==> IO_OK < table(code) <= IO_ESOCKTNOSUPPORT
  }

  /** NTOS `map_error`: code 0 is IO_OK, and every non-zero code, listed or not, is some other status. */
  type ErrorTable = t: nat -> Status | Translates(t) witness Unlisting

  /** The table without its entries. */
  function Unlisting(code: nat): Status { if code == 0 then IO_OK else IO_UNKNOWN }

  /** NTOS `IOAwait<IOResult>::await_resume`: the transferred DWORD is narrowed to int32. */
  function NtosResult(table: ErrorTable, code: nat, transferred: nat): IOResult {
    IOResult.Of(table(code), ToInt32(transferred))
  }

  /** The number has an entry in `map_error`; no entry is IO_UNKNOWN. */
  predicate Listed(sys: int) { MapError(sys) != IO_UNKNOWN }

  /** Both IOResult constructors are undone by the accessors, for every enumerator and every count. */
  lemma ResultRoundTrip(s: Status, n: int32)
    requires IsEnumerator(s)
    ensures IOResult.FromStatus(s).Error() == s
    ensures IOResult.FromStatus(s).Success() <==> s == IO_OK
    ensures s != IO_OK ==> IOResult.Of(s, n) == IOResult.FromStatus(s)
    ensures s == IO_OK ==> IOResult.Of(s, n).Result() == n
    ensures IOResult.Of(s, n).Success() <==> (s == IO_OK && n >= 0)
  {}

  /** The whole Linux chain from a CQE result: success exactly on a non-negative result, the count
      kept, and a failure reported as one of just two statuses. */
  lemma FailureNeverBecomesSuccess(ret: int32)
    ensures MapResult(ret).Success() <==> ret >= 0
    ensures ret >= 0 ==> MapResult(ret).Result() == ret && MapResult(ret).Error() == IO_OK
    ensures ret < 0 ==> MapResult(ret).Error() == (if ret == -1 then IO_EOF else IO_UNKNOWN)
  {
    MapErrorIsNeverOk(ret as int);
  }

  /** The errno a failed operation carried survives `map_result` exactly when it has no entry in the
      table: a listed errno is always lost. */
  lemma ErrnoSurvivesIffUnlisted(ret: int32)
    requires ret < 0
    ensures MapResult(ret) == MapResultOfErrno(ret) <==> !Listed(-(ret as int))
  {
    FailureNeverBecomesSuccess(ret);
    MapErrorIsNeverOk(-(ret as int));
  }

  /** The other way round: the Linux errno that a status is named after, for the statuses that `map_error` can
      name (their order is that of the enumeration). None for IO_OK, IO_UNKNOWN and the two that have no errno. */
  function ErrnoOf(s: Status): Option<int> {
    match s
    case 1 => Some(13) // EACCES
    case 2 => Some(98) // EADDRINUSE
    case 3 => Some(99) // EADDRNOTAVAIL
    case 4 => Some(97) // EAFNOSUPPORT
    case 5 => Some(11) // EAGAIN
    case 6 => Some(114) // EALREADY
    case 7 => Some(9) // EBADF
    case 8 => Some(16) // EBUSY
    case 9 => Some(125) // ECANCELED
    case 11 => Some(103) // ECONNABORTED
    case 12 => Some(111) // ECONNREFUSED
    case 13 => Some(104) // ECONNRESET
    case 14 => Some(89) // EDESTADDRREQ
    case 15 => Some(17) // EEXIST
    case 16 => Some(14) // EFAULT
    case 17 => Some(7) // E2BIG
    case 18 => Some(113) // EHOSTUNREACH
    case 19 => Some(4) // EINTR
    case 20 => Some(22) // EINVAL
    case 21 => Some(5) // EIO
    case 22 => Some(106) // EISCONN
    case 23 => Some(21) // EISDIR
    case 24 => Some(40) // ELOOP
    case 25 => Some(24) // EMFILE
    case 26 => Some(90) // EMSGSIZE
    case 27 => Some(36) // ENAMETOOLONG
    case 28 => Some(100) // ENETDOWN
    case 29 => Some(101) // ENETUNREACH
    case 30 => Some(23) // ENFILE
    case 31 => Some(105) // ENOBUFS
    case 32 => Some(19) // ENODEV
    case 33 => Some(2) // ENOENT
    case 34 => Some(12) // ENOMEM
    case 35 => Some(64) // ENONET
    case 36 => Some(92) // ENOPROTOOPT
    case 37 => Some(28) // ENOSPC
    case 38 => Some(38) // ENOSYS
    case 39 => Some(107) // ENOTCONN
    case 40 => Some(20) // ENOTDIR
    case 41 => Some(39) // ENOTEMPTY
    case 42 => Some(88) // ENOTSOCK
    case 43 => Some(95) // ENOTSUP
    case 44 => Some(75) // EOVERFLOW
    case 45 => Some(1) // EPERM
    case 46 => Some(32) // EPIPE
    case 47 => Some(71) // EPROTO
    case 48 => Some(93) // EPROTONOSUPPORT
    case 49 => Some(91) // EPROTOTYPE
    case 50 => Some(34) // ERANGE
    case 51 => Some(30) // EROFS
    case 52 => Some(108) // ESHUTDOWN
    case 53 => Some(29) // ESPIPE
    case 54 => Some(3) // ESRCH
    case 55 => Some(110) // ETIMEDOUT
    case 56 => Some(26) // ETXTBSY
    case 57 => Some(18) // EXDEV
    case 59 => Some(-1) // EOF
    case 60 => Some(6) // ENXIO
    case 61 => Some(31) // EMLINK
    case 62 => Some(25) // ENOTTY
    case 64 => Some(84) // EILSEQ
    case 65 => Some(94) // ESOCKTNOSUPPORT
    case _ => None
  }

  lemma MappedIsNamedAfter(sys: int)
    ensures Listed(sys) ==> ErrnoOf(MapError(sys)) == Some(sys)
  {}

  lemma NamedAfterIsMapped(s: Status)
    ensures ErrnoOf(s).Some? ==> Listed(ErrnoOf(s).value) && MapError(ErrnoOf(s).value) == s
  {}

  /** The table is a bijection between the listed errnos and the statuses named after them. */
  lemma ErrnoRoundTrip(sys: int, s: Status)
    ensures Listed(sys) ==> ErrnoOf(MapError(sys)) == Some(sys)
    ensures ErrnoOf(s).Some? ==> Listed(ErrnoOf(s).value) && MapError(ErrnoOf(s).value) == s
    ensures Listed(sys) <==> exists s' :: ErrnoOf(s') == Some(sys)
  {
    MappedIsNamedAfter(sys);
    NamedAfterIsMapped(s);
    hide MapError, ErrnoOf;
    if s' :| ErrnoOf(s') == Some(sys) {
      NamedAfterIsMapped(s');
    }
  }

  /** Two system errors are reported alike exactly when they are the same or neither is listed: no two
      entries of the table share a status. */
  lemma ReportedAlikeIff(sys: int, sys': int)
    ensures MapError(sys) == MapError(sys') <==> sys == sys' || (!Listed(sys) && !Listed(sys'))
  {}

  /** A Linux status await cannot report success: a result that is not negative is looked up as an errno
      too, so zero, an operation that succeeded, resumes with IO_UNKNOWN. Nor does it ever report the errno of
      a failure. */
  lemma StatusAwaitNeverOk(ret: int32)
    ensures ResumeStatus(ret) != IO_OK
    ensures ret == 0 ==> ResumeStatus(ret) == IO_UNKNOWN
    ensures ret < 0 ==> ResumeStatus(ret) == if ret == -1 then IO_EOF else IO_UNKNOWN
    ensures ret > 0 ==>
              ErrnoOf(ResumeStatus(ret)) == Some(ret as int) || (ResumeStatus(ret) == IO_UNKNOWN && !Listed(ret as int))
    ensures ret < 0 && Listed(-(ret as int)) ==> ErrnoOf(ResumeStatus(ret)) != Some(-(ret as int))
  {
    MapErrorIsNeverOk(ret as int);
    ErrnoRoundTrip(ret as int, IO_OK);
  }

  /** int32_t(size) is the size itself exactly below 2^31. */
  lemma NarrowingIsExactIff(size: nat)
    ensures ToInt32(size) as int == size <==> size <= INT32_MAX
    ensures (ToInt32(size) as int - size) % 0x1_0000_0000 == 0
  {}
}
