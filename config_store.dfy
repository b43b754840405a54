/** The editable configuration object the settings form writes into: an
    in-memory map from configuration key to value, which `Save` makes
    durable as a whole. */
module ConfigStore {
  import opened Php

  class Config {
    /** The values as currently set on the object. */
    var data: map<string, Value>
    /** The values as last made durable by `Save`. */
    var saved: map<string, Value>

    /** Loads a configuration object whose stored values are `stored`. */
    constructor (stored: map<string, Value>)
      ensures data == stored && saved == stored
    {
      data := stored;
      saved := stored;
    }

    /** Sets one key; a NULL value is stored as such, not removed. */
    method Set(key: string, value: Value)
      modifies this
      ensures data == old(data)[key := value]
      ensures saved == old(saved)
    {
      data := data[key := value];
    }

    /** Makes every value set so far durable in one step, so that no partial
        set of writes is ever observable in the durable state. */
    method Save()
      modifies this
      ensures saved == data
      ensures data == old(data)
    {
      saved := data;
    }
  }
}
