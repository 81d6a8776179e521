/**
 * The plugin's single option: where the cartridge file lives.
 */
module PluginOptions {

  datatype Option<T> = None | Some(value: T)

  /** The options object; `cartridgePath` may be left out. */
  datatype Options = Options(cartridgePath: Option<string>)

  /** The cartridge file used when no usable path is given. */
  const DefaultCartridgePath: string := "cartridge.js"

  /**
   * The cartridge path the plugin reads: the configured path when it is
   * present and non-empty (a truthy string), the default file otherwise.
   */
  function CartridgePath(options: Options): (path: string)
    ensures path != ""
    ensures options.cartridgePath.Some? && options.cartridgePath.value != "" ==> path == options.cartridgePath.value
    ensures options.cartridgePath.None? || options.cartridgePath.value == "" ==> path == DefaultCartridgePath
  {
    match options.cartridgePath
    case Some(p) => if p != "" then p else DefaultCartridgePath
    case None => DefaultCartridgePath
  }
}
