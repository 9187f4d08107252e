/**
 * The request router (`goji.Mux`) as the server sees it: an object whose
 * middleware stack only grows, one `Use` call at a time.
 */
module Goji {
  import opened BaseTypes

  /** The goji mux, seen only through the order of its `Use` calls. */
  class Mux {
    var uses: seq<Middleware>

    /** `goji.NewMux()`: no middleware registered yet. */
    constructor ()
      ensures uses == []
    {
      uses := [];
    }

    /** `mux.Use(m)`: appends `m` to the middleware stack. */
    method Use(m: Middleware)
      modifies this
      ensures uses == old(uses) + [m]
    {
      uses := uses + [m];
    }
  }
}
