/** The flag word of a promise. `Frame.daemon` in `Runtime` stands for its lowest bit, see `DaemonAsSet`. */
module CoroFlags {
  const DAEMON: bv64 := 1
  const SUB_JOB: bv64 := 2

  predicate IsDaemon(word: bv64) {
    word & DAEMON != 0
  }

  predicate IsSubJob(word: bv64) {
    word & SUB_JOB != 0
  }

  function DaemonSet(word: bv64, value: bool): bv64 {
    if value then word | DAEMON else word & !DAEMON
  }

  /** The other bits. */
  function Others(word: bv64): bv64 {
    word & !DAEMON
  }

  function SubJobSet(word: bv64, value: bool): bv64 {
    if value then word | SUB_JOB else word & SUB_JOB
  }

  class FlagWord {
    var flags: bv64

    constructor ()
      ensures flags == 0
    {
      flags := 0;
    }

    /** Only the daemon bit changes. */
    method SetDaemon(value: bool)
      modifies this
      ensures flags == DaemonSet(old(flags), value)
      ensures IsDaemon(flags) == value
      ensures Others(flags) == Others(old(flags))
    {
      hide IsDaemon, Others;
      DaemonOnce(flags, value);
      if value {
        flags := flags | DAEMON;
      } else {
        flags := flags & !DAEMON;
      }
    }

    /** Clearing masks with the bit itself, not with its complement. */
    method SetSubJob(value: bool)
      modifies this
      ensures flags == SubJobSet(old(flags), value)
    {
      if value {
        flags := flags | SUB_JOB;
      } else {
        flags := flags & SUB_JOB;
      }
    }
  }

  /** The word after the daemon flag has been set to each of `values` in turn. */
  function DaemonHistory(word: bv64, values: seq<bool>): bv64
    decreases |values|
  {
    if values == [] then word else DaemonHistory(DaemonSet(word, values[0]), values[1..])
  }

  lemma DaemonOnce(word: bv64, value: bool)
    ensures IsDaemon(DaemonSet(word, value)) == value && Others(DaemonSet(word, value)) == Others(word)
  {
  }

  /** The flag always reads as it was last set, so a boolean can stand for it; and nothing else in the word moves. */
  lemma {:induction false} DaemonAsSet(word: bv64, values: seq<bool>)
    ensures IsDaemon(DaemonHistory(word, values)) == if values == [] then IsDaemon(word) else values[|values| - 1]
    ensures Others(DaemonHistory(word, values)) == Others(word)
    decreases |values|
  {
    hide IsDaemon, DaemonSet, Others;
    if values != [] {
      DaemonOnce(word, values[0]);
      DaemonAsSet(DaemonSet(word, values[0]), values[1..]);
    }
  }

  /** Setting the sub-job bit does what its name says, for that bit and for the others, exactly when the bit is
      to be set or the word is already empty. */
  lemma SubJobExact(word: bv64, value: bool)
    ensures IsSubJob(SubJobSet(word, value)) == value && SubJobSet(word, value) & !SUB_JOB == word & !SUB_JOB
            <==> value || word == 0
  {
  }

  /** Clearing it on a daemon that is a sub-job leaves a sub-job that is no daemon. */
  lemma SubJobWrong()
    ensures var word := DAEMON | SUB_JOB;
            IsSubJob(SubJobSet(word, false)) && IsDaemon(word) && !IsDaemon(SubJobSet(word, false))
  {
  }
}
