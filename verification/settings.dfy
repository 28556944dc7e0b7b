/** The server's configuration, read once from the environment, and the clamps applied to it. */
module Settings {

  /** Integer settings hold whatever `int(os.getenv(...))` produced, negative values included. */
  datatype Config = Config(
    apiKey: string,            // BRAVE_API_KEY, "" when unset
    rateLimitRps: int,         // BRAVE_RATE_LIMIT_RPS before clamping
    contentLengthLimit: int,   // CONTENT_LENGTH_LIMIT, in characters
    maxResponseSize: int       // MAX_RESPONSE_SIZE, compared against decoded characters
  )

  const DefaultRateLimitRps := 1
  const DefaultContentLengthLimit := 5000
  const DefaultMaxResponseSize := 10485760

  const MinRps := 1
  const MaxRps := 50

  /** `x` moved into `[lo, hi]`: unchanged when already inside, otherwise the nearer bound. */
  function Clamp(lo: int, hi: int, x: int): (r: int)
    requires lo <= hi
    ensures lo <= r <= hi
    ensures lo <= x <= hi ==> r == x
    ensures x < lo ==> r == lo
    ensures hi < x ==> r == hi
  {
    if x < lo then lo else if x > hi then hi else x
  }

  /** The requests-per-second rate after validation. */
  function RateLimitRps(cfg: Config): (r: int)
    ensures MinRps <= r <= MaxRps
    ensures MinRps <= cfg.rateLimitRps <= MaxRps ==> r == cfg.rateLimitRps
  {
    Clamp(MinRps, MaxRps, cfg.rateLimitRps)
  }

  /** `MIN_REQUEST_INTERVAL = 1.0 / BRAVE_RATE_LIMIT_RPS`, in seconds, over exact reals. */
  function MinRequestInterval(cfg: Config): (r: real)
    ensures 1.0 / 50.0 <= r <= 1.0
    ensures r * (RateLimitRps(cfg) as real) == 1.0
  {
    var rps := RateLimitRps(cfg) as real;
    assert 1.0 / rps <= 1.0;
    assert 1.0 / 50.0 <= 1.0 / rps by {
      assert rps * (1.0 / rps) == 1.0;
      assert 50.0 * (1.0 / 50.0) == 1.0;
    }
    1.0 / rps
  }
}
