/** The per-campaign cancellation flags of src/searcher/campaigns/cancellation.py. */
module Cancellation {
  class CancellationController {
    var flags: map<string, bool>

    constructor ()
      ensures forall id :: !IsSet(id)
    {
      flags := map[];
    }

    predicate IsSet(searchId: string)
      reads this
    {
      searchId in flags && flags[searchId]
    }

    // flag: created unset on first use.
    method Flag(searchId: string)
      modifies this
      ensures searchId in flags && forall id :: IsSet(id) <==> old(IsSet(id))
    {
      if searchId !in flags {
        flags := flags[searchId := false];
      }
    }

    method Request(searchId: string)
      modifies this
      ensures forall id :: IsSet(id) <==> id == searchId || old(IsSet(id))
    {
      Flag(searchId);
      flags := flags[searchId := true];
    }

    method IsCancelled(searchId: string) returns (r: bool)
      modifies this
      ensures r == old(IsSet(searchId)) && forall id :: IsSet(id) <==> old(IsSet(id))
    {
      Flag(searchId);
      r := flags[searchId];
    }
  }
}
