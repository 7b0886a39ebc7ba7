/**
 * What the host client (RuneLite) hands to this extension and what the
 * extension asks of it. The host's plugin manager is outside the model; the
 * calls made to it are recorded, in order, as a trace of `HostCall`s.
 */
module Host {

  /** The host's base class every plugin entry point extends. */
  const PLUGIN_BASE_CLASS_NAME: string := "net.runelite.client.plugins.Plugin"

  /** A plugin instance created by the host; `id` stands for object identity. */
  datatype Plugin = Plugin(id: nat, name: string)

  /** One call made into the host's `PluginManager`. */
  datatype HostCall =
    | SetPluginEnabled(plugin: Plugin, enabled: bool)
    | StartPlugin(plugin: Plugin)
    | StopPlugin(plugin: Plugin)
}
