/** What the generator is asked to do besides reading the Python module: a
    target function (`TargetSpec`, `src/utils.rs`), and the formatting
    routines of other crates that its text depends on. */
module Target {
  import opened PyAst

  /** One hotspot to translate. `percent` is the `{:.2}` rendering of the f32
      share of run time, which is formatting the model does not reproduce. */
  datatype TargetSpec = TargetSpec(func: string, line: nat, percent: string, reason: string)

  /** `heck::ToSnakeCase` and the `{:?}` (Debug) rendering of a parsed constant. */
  datatype Formatters = Formatters(snakeCase: string -> string, constDebug: Const -> string)
}
