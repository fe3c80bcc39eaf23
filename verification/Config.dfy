/** The configured constants the proofs depend on. Instants are in milliseconds, lifetimes in seconds. */
module Config {
  const OAUTH_ACCESS_TTL_SEC: nat := 900
  const OAUTH_REFRESH_TTL_SEC: nat := 2_592_000
  const OAUTH_REFRESH_ABSOLUTE_TTL_SEC: nat := 15_552_000
  const AUTH_CODE_TTL_SEC: nat := 60
  const PENDING_AUTH_TTL_SEC: nat := 600
  const CLOCK_TOLERANCE_SEC: nat := 5

  const SESSION_ACCESS_TTL_SEC: nat := 900
  const SESSION_REFRESH_TTL_SEC: nat := 604_800

  const MAX_FAILED_LOGINS: nat := 5
  const LOCKOUT_WINDOW_SEC: nat := 900

  /** The whole second an instant falls in: `Math.floor(ms / 1000)`. */
  function Sec(ms: nat): nat { ms / 1000 }

  /** Lifetime in milliseconds. */
  function Ms(sec: nat): nat { sec * 1000 }
}
