/** The custom image loader: external URLs pass through, anything else is
    served from the site root. */
module ImageLoader {
  import opened Wrappers

  /** `imageLoader({ src, width, quality })`. The test is a plain prefix check on
      `"http"`, so a local file named like `http-logo.png` passes through too. */
  function Load(src: string, width: nat, quality: Option<nat>): (r: string)
    ensures "http" <= src ==> r == src
    ensures !("http" <= src) ==> |r| == |src| + 1 && r[0] == '/' && r[1..] == src
  {
    if "http" <= src then src else "/" + src
  }

  /** The requested width and quality never change the URL. */
  lemma IgnoresSizeAndQuality(src: string, w1: nat, q1: Option<nat>, w2: nat, q2: Option<nat>)
    ensures Load(src, w1, q1) == Load(src, w2, q2)
  {
  }

  /** Every result ends with the source it was given and is either an
      `http`-prefixed string or a root-relative path. */
  lemma ResultShape(src: string, width: nat, quality: Option<nat>)
    ensures var r := Load(src, width, quality);
      r[|r| - |src|..] == src && ("http" <= r || (r != [] && r[0] == '/'))
  {
  }

  /** A root-relative result is not rewritten as external when loaded again,
      so the rewrite is not idempotent: a second pass adds a second `/`. */
  lemma LocalRewriteIsNotIdempotent(src: string, width: nat, quality: Option<nat>)
    requires !("http" <= src)
    ensures Load(Load(src, width, quality), width, quality) == "//" + src
  {
    var r := Load(src, width, quality);
    assert !("http" <= r) by { assert r[0] == '/'; }
  }

  /** `"http-logo.png"` is passed through unchanged. */
  lemma HttpNamedLocalFilePassesThrough()
    ensures Load("http-logo.png", 640, None) == "http-logo.png"
  {
  }
}
