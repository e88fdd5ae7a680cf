/** Constants and small value types shared by the MINIX 3 kernel model. */
module KernelTypes {

  datatype Option<+T> = None | Some(value: T)

  // Process table slots.  A slot is a process number plus NR_TASKS.
  const NR_TASKS: nat := 4
  const IDLE: nat := 0
  const CLOCK: nat := 1
  const SYSTEM: nat := 2
  const HARDWARE: nat := 3
  const PM: nat := 4
  const VFS: nat := 5
  const VM: nat := 12
  const INIT: nat := 13
  const NR_BOOT_PROCS: nat := 14

  const NR_SYS_PROCS: nat := 32
  const BITCHUNK_BITS: nat := 16
  const NR_SYS_CHUNKS: nat := 2
  const USER_PRIV_ID: nat := 0

  const NR_SCHED_QUEUES: nat := 16
  const IDLE_Q: nat := 15

  // System call numbers.
  const SEND: int := 1
  const RECEIVE: int := 2
  const SENDREC: int := 3
  const NOTIFY: int := 4
  const SENDNB: int := 5
  const SENDA: int := 16

  predicate Distinct<T(==)>(s: seq<T>) {
    forall i, j :: 0 <= i < j < |s| ==> s[i] != s[j]
  }

  /** The position of the first occurrence of x. */
  function IndexOf<T(==)>(s: seq<T>, x: T): (k: nat)
    requires x in s
    ensures k < |s| && s[k] == x
    ensures forall j :: 0 <= j < k ==> s[j] != x
  {
    if s[0] == x then 0 else 1 + IndexOf(s[1..], x)
  }

  function RemoveAt<T>(s: seq<T>, k: nat): (r: seq<T>)
    requires k < |s|
  {
    s[..k] + s[k + 1..]
  }

  lemma RemoveAtElements<T>(s: seq<T>, k: nat)
    requires k < |s|
    ensures Distinct(s) ==> Distinct(RemoveAt(s, k))
    ensures Distinct(s) ==> forall x :: x in RemoveAt(s, k) <==> x in s && x != s[k]
    ensures forall x :: x in RemoveAt(s, k) ==> x in s
  {
    var r := RemoveAt(s, k);
    assert forall i :: 0 <= i < |r| ==> r[i] == if i < k then s[i] else s[i + 1];
    forall x | x in s && x != s[k] ensures x in r {
      var i :| 0 <= i < |s| && s[i] == x;
      assert r[if i < k then i else i - 1] == x;
    }
  }
}
