/** Vocabulary shared by the scheduler and the blocking primitives. */
module Basics {

  datatype Option<+T> = None | Some(value: T)

  /** Number of priority levels; a larger number is a more urgent task. */
  const NO_PRIORITIES: nat := 31

  const U32_MAX: nat := 0xFFFF_FFFF
  const U64_MAX: nat := 0xFFFF_FFFF_FFFF_FFFF

  type Priority = p: nat | p < NO_PRIORITIES
  type Time = t: nat | t <= U64_MAX

  /** A `TaskHandle` names a task, the priority it had when the handle was made, and its core. */
  datatype TaskHandle = TaskHandle(id: int, prio: Priority, core: nat)

  ghost predicate NoDup<T>(s: seq<T>) {
    forall i, j :: 0 <= i < j < |s| ==> s[i] != s[j]
  }

  function RemoveAt<T>(s: seq<T>, i: nat): (r: seq<T>)
    requires i < |s|
    ensures |r| == |s| - 1
    ensures forall j :: 0 <= j < |r| ==> r[j] == s[if j < i then j else j + 1]
    ensures forall x :: x in r ==> x in s
    ensures forall x :: x in s ==> x in r || x == s[i]
  {
    var r := s[..i] + s[i + 1..];
    assert forall j :: 0 <= j < |s| && j != i ==> s[j] == r[if j < i then j else j - 1];
    r
  }

  /** Handles are compared by task id alone. */
  ghost predicate NoDupIds(s: seq<TaskHandle>) {
    forall i, j :: 0 <= i < j < |s| ==> s[i].id != s[j].id
  }
}
