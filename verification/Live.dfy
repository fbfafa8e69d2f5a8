/** The live configuration snapshot of `config/mod.rs`. */
module Live {
  import opened Wrappers

  class Live<T> {
    var value: T

    constructor (value: T)
      ensures this.value == value
    {
      this.value := value;
    }

    method Replace(next: T)
      modifies this
      ensures value == next
    {
      value := next;
    }
  }

  /** Load and swap; a failed load (None) leaves the snapshot alone. */
  method TryReload<T>(loaded: Option<T>, live: Live<T>) returns (ok: bool)
    modifies live
    ensures ok == loaded.Some?
    ensures live.value == if loaded.Some? then loaded.value else old(live.value)
  {
    if loaded.None? {
      return false;
    }
    live.Replace(loaded.value);
    ok := true;
  }
}
