/** The per-chat lock dictionaries `_locks` of src/buddy_bot/executor.py and
    src/buddy_bot/processor.py. Locking itself (asyncio.Lock) is concurrency
    and is not modelled; what is modelled is that `_get_lock` hands out one
    lock per chat, made on first use. */
module Locks {

  class Lock {
    constructor ()
    {
    }
  }

  class LockTable {
    var locks: map<string, Lock>

    /** No two chats share a lock. */
    ghost predicate Valid()
      reads this
    {
      forall c, d :: c in locks && d in locks && c != d ==> locks[c] != locks[d]
    }

    constructor ()
      ensures Valid() && locks == map[]
    {
      locks := map[];
    }

    /** _get_lock: the same lock on every call for a chat, a new one the first time. */
    method GetLock(chat: string) returns (lock: Lock)
      requires Valid()
      modifies this
      ensures Valid() && chat in locks && lock == locks[chat]
      ensures chat in old(locks) ==> locks == old(locks)
      ensures chat !in old(locks) ==> fresh(lock) && locks == old(locks)[chat := lock]
    {
      if chat !in locks {
        var l := new Lock();
        locks := locks[chat := l];
      }
      lock := locks[chat];
    }
  }
}
