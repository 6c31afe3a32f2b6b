/**
 * The types that the settings layer takes from the crate's `content` and
 * `redaction` modules. Those modules are not part of this model: each type
 * here is an opaque token, and selector parsing is an arbitrary partial
 * function supplied by the caller.
 */
module Redaction {

  datatype Option<+T> = None | Some(value: T)

  /** A structured value (`Content`); only its identity matters to the settings. */
  datatype Content = Content(id: nat)

  /** A parsed, owned path selector (`Selector<'static>`). */
  datatype Selector = Selector(id: nat)

  /** A user closure stored as `Arc<Box<dyn Fn ...>>`, known only by identity. */
  datatype Callback = Callback(id: nat)

  /**
   * `Selector::parse(s).map(make_static)`: `None` where the selector text does
   * not parse, which is where the settings code's `unwrap` panics.
   */
  type Parser = string -> Option<Selector>

  /** What a rule does to the value its selector matches. */
  datatype Redaction =
    | Static(replacement: Content)   // substitute a fixed value
    | Replacement(compute: Callback)  // substitute what the callback returns
    | Assertion(check: Callback)      // run the callback, leave the value
}
