/**
 * The client's copy of the three counters. Every reply that is ok carries
 * the whole counter row and overwrites all three values; anything else is
 * logged and leaves them as they were.
 */
module CounterStore {
  import opened Wrappers
  import opened Database
  import CountersRoute

  datatype CounterKind = Brigas | Acidentes | Pts

  function KindName(k: CounterKind): (s: string)
    ensures CountersRoute.IsCounterType(s)
  {
    match k
    case Brigas => "brigas"
    case Acidentes => "acidentes"
    case Pts => "pts"
  }

  /** The body `incrementCounter` sends. */
  function IncrementBody(k: CounterKind): CountersRoute.PatchBody {
    CountersRoute.PatchBody(Some(KindName(k)), Some("increment"))
  }

  /** The body `decrementCounter` sends. */
  function DecrementBody(k: CounterKind): CountersRoute.PatchBody {
    CountersRoute.PatchBody(Some(KindName(k)), Some("decrement"))
  }

  /**
   * The route accepts both bodies and moves the named counter up by one for
   * the first and down by one for the second, leaving the others alone.
   */
  lemma BodiesMoveByOne(k: CounterKind, row: CounterRow)
    ensures var t := IncrementBody(k).kind.value;
      && t == DecrementBody(k).kind.value
      && CountersRoute.Field(CountersRoute.Bump(row, t, CountersRoute.Increment(IncrementBody(k).action)), t)
         == CountersRoute.Field(row, t) + 1
      && CountersRoute.Field(CountersRoute.Bump(row, t, CountersRoute.Increment(DecrementBody(k).action)), t)
         == CountersRoute.Field(row, t) - 1
  {
  }

  class Store {
    var brigas: int
    var acidentes: int
    var pts: int
    var isLoading: bool

    constructor()
      ensures brigas == 0 && acidentes == 0 && pts == 0 && !isLoading
    {
      brigas, acidentes, pts := 0, 0, 0;
      isLoading := false;
    }

    /** Overwrites all three counters from an ok reply; keeps them otherwise. */
    method Take(reply: Reply<CounterRow>)
      modifies this`brigas, this`acidentes, this`pts
      ensures reply.Ok? ==> brigas == reply.payload.brigas && acidentes == reply.payload.acidentes && pts == reply.payload.pts
      ensures !reply.Ok? ==> brigas == old(brigas) && acidentes == old(acidentes) && pts == old(pts)
    {
      if reply.Ok? {
        brigas, acidentes, pts := reply.payload.brigas, reply.payload.acidentes, reply.payload.pts;
      }
    }

    method FetchCounters(reply: Reply<CounterRow>)
      modifies this
      ensures !isLoading
      ensures reply.Ok? ==> brigas == reply.payload.brigas && acidentes == reply.payload.acidentes && pts == reply.payload.pts
      ensures !reply.Ok? ==> brigas == old(brigas) && acidentes == old(acidentes) && pts == old(pts)
    {
      isLoading := true;
      Take(reply);
      isLoading := false;
    }

    method IncrementCounter(k: CounterKind, reply: Reply<CounterRow>) returns (sent: CountersRoute.PatchBody)
      modifies this`brigas, this`acidentes, this`pts
      ensures sent == IncrementBody(k)
      ensures reply.Ok? ==> brigas == reply.payload.brigas && acidentes == reply.payload.acidentes && pts == reply.payload.pts
      ensures !reply.Ok? ==> brigas == old(brigas) && acidentes == old(acidentes) && pts == old(pts)
    {
      sent := IncrementBody(k);
      Take(reply);
    }

    method DecrementCounter(k: CounterKind, reply: Reply<CounterRow>) returns (sent: CountersRoute.PatchBody)
      modifies this`brigas, this`acidentes, this`pts
      ensures sent == DecrementBody(k)
      ensures reply.Ok? ==> brigas == reply.payload.brigas && acidentes == reply.payload.acidentes && pts == reply.payload.pts
      ensures !reply.Ok? ==> brigas == old(brigas) && acidentes == old(acidentes) && pts == old(pts)
    {
      sent := DecrementBody(k);
      Take(reply);
    }
  }
}
