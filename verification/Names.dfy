/** Text as the app shows it: names without their character code (core/src/games/sc2/chat/session.rs) and bodies
    up to the server's cap (app/src/uplink/model.rs). */
module Names {

  function LastHash(s: string): (i: int)
    ensures -1 <= i < |s|
    ensures i >= 0 ==> s[i] == '#'
    ensures forall k :: i < k < |s| ==> s[k] != '#'
  {
    if s == [] then -1 else if s[|s| - 1] == '#' then |s| - 1 else LastHash(s[..|s| - 1])
  }

  /** Drops a trailing `#` and digits, unless nothing would be left. */
  function StripCode(name: string): string {
    var i := LastHash(name);
    if i > 0 && i + 1 < |name| && forall k :: i < k < |name| ==> '0' <= name[k] <= '9' then name[..i] else name
  }

  const MAX_BODY_CHARS := 4000

  function Truncated(body: string): (r: string)
    ensures r <= body && |r| == if |body| <= MAX_BODY_CHARS then |body| else MAX_BODY_CHARS
  {
    if |body| <= MAX_BODY_CHARS then body else body[..MAX_BODY_CHARS]
  }
}
