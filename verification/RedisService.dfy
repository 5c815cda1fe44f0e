/**
 * The Redis store behind the cache and the locks; keys do not expire. A command that
 * throws is caught and answered as on a closed client, so `isOpen` stands for both.
 */
module Redis {
  import opened Prelude

  class RedisService {
    var isOpen: bool
    var store: map<string, string>

    constructor ()
      ensures isOpen && store == map[]
    {
      isOpen, store := true, map[];
    }

    function Get(key: string): Option<string>
      reads this
    {
      if isOpen && key in store then Some(store[key]) else None
    }

    method Set(key: string, value: string)
      modifies this`store
      ensures store == if isOpen then old(store)[key := value] else old(store)
    {
      if isOpen {
        store := store[key := value];
      }
    }

    /** `SET key NX`; without a connection every caller is let through. */
    method AcquireLock(key: string) returns (acquired: bool)
      modifies this`store
      ensures acquired == (!isOpen || key !in old(store))
      ensures store == if isOpen && key !in old(store) then old(store)[key := "locked"] else old(store)
    {
      if !isOpen {
        return true;
      }
      if key in store {
        return false;
      }
      store := store[key := "locked"];
      return true;
    }

    /** Deletes the key, whoever holds the lock. */
    method ReleaseLock(key: string)
      modifies this`store
      ensures store == if isOpen then old(store) - {key} else old(store)
    {
      if isOpen {
        store := store - {key};
      }
    }
  }
}
