/** Names shared by the kernel modules. Tasks and kernel objects are identified by numbers, which stand for
    the addresses of their control blocks. */
module KernelTypes {

  type Task = nat
  type Obj = nat
  type Byte = n: nat | n < 256
  type Message = seq<Byte>

  datatype Option<+T> = None | Some(value: T)

  /** `RHINO_CONFIG_PRI_MAX`, `RHINO_IDLE_PRI` */
  const PRI_MAX: nat := 62
  const IDLE_PRI: nat := PRI_MAX - 1

  /** `tick_t` is 64 bits wide. `WAIT_FOREVER` is `RHINO_WAIT_FOREVER`. */
  const TICK_RANGE: nat := 0x1_0000_0000_0000_0000
  const HALF_RANGE: nat := 0x8000_0000_0000_0000
  const WAIT_FOREVER: nat := TICK_RANGE - 1

  /** Largest values of `suspend_nested_t`, `mutex_nested_t` and `sem_count_t`. */
  const SUSPEND_MAX: nat := 0xFF
  const NESTED_MAX: nat := 0xFFFF_FFFF
  const SEM_MAX: nat := 0xFFFF_FFFF
  const SCHED_LOCK_MAX: nat := 200
  const TIME_SLICE_DEFAULT: nat := 50

  /** A word of event flags, as the set of its one bits. */
  type Flags = set<nat>

  type SemCount = n: nat | n <= SEM_MAX

  datatype TaskState =
    | Ready | Pend | Suspended | PendSuspended | Sleep | SleepSuspended | Deleted

  predicate Pending(s: TaskState) { s.Pend? || s.PendSuspended? }
  predicate Sleeping(s: TaskState) { s.Sleep? || s.SleepSuspended? }
  predicate IsSuspended(s: TaskState) { s.Suspended? || s.PendSuspended? || s.SleepSuspended? }
  predicate Live(s: TaskState) { !s.Deleted? }

  /** Why a wait ended. */
  datatype BlkState = BlkFinish | BlkAbort | BlkTimeout | BlkDel

  /** What a kernel object is, with the part of it that its operations change. */
  datatype Object =
    | Gone
    | Mutex
    | Sem(count: SemCount, peak: SemCount)
    | Event(flags: Flags)
    | BufQueue(msgs: seq<Message>, capacity: nat, maxMsg: nat)

  datatype Status =
    | Success | Blocked | TypeErr | OwnerNested | NestedOverflow | NotOwner | NoPendWait | SchedDisabled
    | NotSuspended | SuspendOverflow | InvTaskState | InvParam | PriChangeNotAllowed | NotAllowed
    | SemOverflow | SemTaskWaiting | QueueFull | Overrun | MsgTooLong | SizeZero
    | LockOverflow | AlreadyEnabled | BeyondMaxPri
}
