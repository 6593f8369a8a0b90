/**
  The client-side query cache the sliders write to: cached values by query
  key, and the set of keys marked stale by `invalidateQueries`. Refetching,
  subscriptions and garbage collection are not part of this model.
 */
module Query {
  import opened Js

  class QueryClient<T> {
    /** The cached value of each key that has one. */
    var data: map<string, T>
    /** The keys `invalidateQueries` has marked stale. */
    var stale: set<string>

    /** An empty cache with nothing stale. */
    constructor ()
      ensures data == map[] && stale == {}
    {
      data := map[];
      stale := {};
    }

    /** `getQueryData([key])`: the cached value, or `undefined`. */
    function GetQueryData(key: string): Option<T>
      reads this
    {
      if key in data then Some(data[key]) else None
    }

    /** `setQueryData([key], value)` with the value the updater computed. */
    method SetQueryData(key: string, value: T)
      modifies this`data
      ensures data == old(data)[key := value]
      ensures GetQueryData(key) == Some(value)
    {
      data := data[key := value];
    }

    /** `invalidateQueries({ queryKey: [key] })`: the cached value stays, marked stale. */
    method InvalidateQueries(key: string)
      modifies this`stale
      ensures stale == old(stale) + {key}
    {
      stale := stale + {key};
    }
  }
}
