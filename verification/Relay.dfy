/** The webhook a session is given: where the hub relays events to, and the host's own token. */
module Relay {
  import opened Basics

  const TOKEN_HEADER := "X-Hub-Relay-Token"

  datatype HookUrl = Elsewhere(text: string) | RelayFor(base: string, host: Id)

  /** `settings` stands for the event list and the two format flags, which are copied as they are. */
  datatype Webhook = Webhook(enabled: Option<bool>, url: HookUrl, headers: map<string, string>, settings: nat)

  /** `toLowerCase`, as far as it can meet a header name of ASCII letters: besides A to Z only the Kelvin sign does. */
  function LowerChar(c: char): char {
    if 'A' <= c <= 'Z' then c - 'A' + 'a' else if c == '\U{212A}' then 'k' else c
  }

  function Lower(s: string): string {
    seq(|s|, k requires 0 <= k < |s| => LowerChar(s[k]))
  }

  /** Header names are compared without regard to case. */
  predicate IsTokenHeader(name: string) {
    Lower(name) == Lower(TOKEN_HEADER)
  }

  /** The letter `d` in upper or lower case, or the Kelvin sign for a K. */
  predicate SameLetter(c: char, d: char) {
    || c == d
    || ('a' <= d <= 'z' && c == d - 'a' + 'A') || ('A' <= d <= 'Z' && c == d - 'A' + 'a')
    || ((d == 'k' || d == 'K') && c == '\U{212A}')
  }

  /** The token header's name, each letter in whatever case. */
  predicate TokenSpelling(name: string) {
    |name| == |TOKEN_HEADER| && forall k :: 0 <= k < |name| ==> SameLetter(name[k], TOKEN_HEADER[k])
  }

  lemma SpelledAlike(name: string)
    ensures IsTokenHeader(name) <==> TokenSpelling(name)
  {
    assert |Lower(name)| == |name| && |Lower(TOKEN_HEADER)| == |TOKEN_HEADER|;
    if |name| == |TOKEN_HEADER| {
      forall k | 0 <= k < |name|
        ensures Lower(name)[k] == Lower(TOKEN_HEADER)[k] <==> SameLetter(name[k], TOKEN_HEADER[k]) {
        LettersAlike(name[k], TOKEN_HEADER[k]);
      }
    }
  }

  lemma LettersAlike(c: char, d: char)
    requires d != '\U{212A}'
    ensures LowerChar(c) == LowerChar(d) <==> SameLetter(c, d)
  {}

  /** Redirects a webhook to the hub, for one host. */
  function Relayed(base: string, h: Id, token: string, w: Webhook): Webhook {
    var headers := map n | n in w.headers && !IsTokenHeader(n) :: w.headers[n];
    Webhook(Some(if w.enabled.Some? then w.enabled.value else true), RelayFor(base, h),
            headers[TOKEN_HEADER := token], w.settings)
  }

  /** Redirecting again, to another host, leaves no trace of the first. */
  lemma RelayForgetsEarlierHost(base: string, g: Id, other: string, h: Id, token: string, w: Webhook)
    ensures Relayed(base, h, token, Relayed(base, g, other, w)) == Relayed(base, h, token, w)
  {
    var once := Relayed(base, g, other, w);
    assert IsTokenHeader(TOKEN_HEADER);
    assert (map n | n in once.headers && !IsTokenHeader(n) :: once.headers[n]) ==
             (map n | n in w.headers && !IsTokenHeader(n) :: w.headers[n]);
  }

  /** Whatever spelling the caller used, the one token sent is the host's, and every other header is the caller's. */
  lemma RelayedHeaders(base: string, h: Id, token: string, w: Webhook, n: string)
    ensures n in Relayed(base, h, token, w).headers <==> n == TOKEN_HEADER || (n in w.headers && !IsTokenHeader(n))
    ensures n in Relayed(base, h, token, w).headers && IsTokenHeader(n) ==>
              n == TOKEN_HEADER && Relayed(base, h, token, w).headers[n] == token
    ensures n in Relayed(base, h, token, w).headers && !IsTokenHeader(n) ==>
              Relayed(base, h, token, w).headers[n] == w.headers[n]
  {
    assert IsTokenHeader(TOKEN_HEADER);
  }
}
