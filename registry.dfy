/** The running registry: task id to "a run of it is in progress". */
module Registry {

  class Instance {
    var status: map<int, bool>

    /** A fresh registry knows no task. */
    constructor ()
      ensures status == map[]
    {
      status := map[];
    }

    /** True only when the key is present and its flag is set. */
    function Has(key: int): (running: bool)
      reads this
      ensures running <==> key in status && status[key]
    {
      if key in status then status[key] else false
    }

    /** Marks the task as running; every other key is left alone. */
    method Add(key: int)
      modifies this
      ensures status == old(status)[key := true]
      ensures Has(key)
      ensures forall k :: k != key ==> Has(k) == old(Has(k))
    {
      status := status[key := true];
    }

    /** Clears the flag but keeps the key; every other key is left alone. */
    method Done(key: int)
      modifies this
      ensures status == old(status)[key := false]
      ensures key in status && !Has(key)
      ensures forall k :: k != key ==> Has(k) == old(Has(k))
    {
      status := status[key := false];
    }
  }
}
