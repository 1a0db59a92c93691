/** The table of installed plugins. Both Ruby generations install a plugin with
    `define_method(name)` on their `Plugins` module, and `register_plugin` only forwards
    to `Plugins.register`; the methods become entries of a table from name to handler. */
module PluginTable {
  import opened Values

  /** The installed plugins: `define_method(name)` replaces any earlier method of that name. */
  class Registry<H> {
    var handlers: map<string, H>

    constructor ()
      ensures handlers == map[]
    {
      handlers := map[];
    }

    /** `Plugins.register(name, &plugin_block)` */
    method Register(name: string, handler: H)
      modifies this
      ensures handlers == old(handlers)[name := handler]
    {
      handlers := handlers[name := handler];
    }

    /** `register_plugin(name, &plugin_block)`: the same registration. */
    method RegisterPlugin(name: string, handler: H)
      modifies this
      ensures handlers == old(handlers)[name := handler]
    {
      Register(name, handler);
    }

    /** Calling a name that was never registered is a `NoMethodError`. */
    function Find(name: string): (r: Option<H>)
      reads this
      ensures r.Some? <==> name in handlers
      ensures r.Some? ==> r.value == handlers[name]
    {
      if name in handlers then Some(handlers[name]) else None
    }
  }
}
