/** The build layer cache: `pybox/storage/layer_cache.py`. */
module LayerCaches {
  import opened Outcomes

  /** A layer tarball, by content. */
  type Layer = seq<bv8>

  type Entries = map<string, Layer>

  datatype CacheError = KeyError(stepHash: string)

  /** Where a put that raises stops: before it copies, after so many bytes of the copy, or after the copy, when
  it describes the entry. */
  datatype Stop = Before | Within(kept: nat) | Behind

  datatype Putting = Stored | Stopped(stop: Stop)

  function AfterPut(entries: Entries, stepHash: string, layer: Layer, put: Putting): Entries {
    match put
    case Stored => entries[stepHash := layer]
    case Stopped(Before) => entries
    case Stopped(Within(n)) => entries[stepHash := if n <= |layer| then layer[..n] else layer]
    case Stopped(Behind) => entries[stepHash := layer]
  }

  class LayerCache {
    var entries: Entries

    constructor ()
      ensures entries == map[]
    {
      entries := map[];
    }

    method Has(stepHash: string) returns (cached: bool)
      ensures cached <==> stepHash in entries
    {
      return stepHash in entries;
    }

    method Get(stepHash: string) returns (layer: Result<Layer, CacheError>)
      ensures layer == if stepHash in entries then Ok(entries[stepHash]) else Err(KeyError(stepHash))
    {
      if stepHash !in entries {
        return Err(KeyError(stepHash));
      }
      return Ok(entries[stepHash]);
    }

    /** The copy goes straight to the final name; `ok` is false when it raises. */
    method Put(stepHash: string, layer: Layer, put: Putting) returns (ok: bool)
      modifies this
      ensures ok == put.Stored? && entries == AfterPut(old(entries), stepHash, layer, put)
      ensures ok ==> stepHash in entries && entries[stepHash] == layer
      ensures forall other :: other != stepHash ==>
                && (other in entries <==> other in old(entries))
                && (other in entries ==> entries[other] == old(entries)[other])
      ensures put == Stopped(Before) ==> entries == old(entries)
      ensures put != Stopped(Before) ==> stepHash in entries && entries[stepHash] <= layer
      ensures put.Stopped? && put.stop.Within? && put.stop.kept <= |layer| ==> |entries[stepHash]| == put.stop.kept
    {
      if put == Stopped(Before) {
        return false;
      }
      if put.Stopped? && put.stop.Within? {
        var n := put.stop.kept;
        entries := entries[stepHash := if n <= |layer| then layer[..n] else layer];
        return false;
      }
      entries := entries[stepHash := layer];
      return put.Stored?;
    }

    method Evict(stepHash: string)
      modifies this
      ensures entries == old(entries) - {stepHash}
    {
      entries := entries - {stepHash};
    }

    method Clear()
      modifies this
      ensures entries == map[]
    {
      entries := map[];
    }
  }
}
