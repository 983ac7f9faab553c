/** The in-memory checkpoint store: a map updated in place. */
module CheckpointStore {
  import opened Options

  function Lookup<V>(values: map<string, V>, key: string): Option<V> {
    if key in values then Some(values[key]) else None
  }

  class InMemoryCheckpointStore<V> {
    var values: map<string, V>

    constructor ()
      ensures values == map[]
    {
      values := map[];
    }

    method Load(key: string) returns (value: Option<V>)
      ensures value == Lookup(values, key)
    {
      value := if key in values then Some(values[key]) else None;
    }

    method Save(key: string, value: V)
      modifies this
      ensures values == old(values)[key := value]
    {
      values := values[key := value];
    }

    method Clear(key: string)
      modifies this
      ensures values == old(values) - {key}
    {
      values := values - {key};
    }
  }
}
