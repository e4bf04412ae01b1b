/** WhatsApp addresses in the engine's and the library's form
    (openwa/src/engine/adapters/baileys-jid.util.ts). */
module Jid {
  import opened Text

  const ENGINE_DOMAIN := "c.us"
  const BAILEYS_DOMAIN := "s.whatsapp.net"

  // Where the first '@' is; the length when there is none.
  function At(jid: string): (n: nat)
    ensures n <= |jid| && (n < |jid| ==> jid[n] == '@') && forall i | 0 <= i < n :: jid[i] != '@'
  {
    Span(jid, c => c != '@')
  }

  function Domain(jid: string): string
    requires At(jid) < |jid|
  {
    jid[At(jid) + 1..]
  }

  // The part of the user before a device number.
  function Bare(user: string): (r: string)
    ensures r <= user && ':' !in r && (r == user <==> ':' !in user)
  {
    var n := Span(user, c => c != ':');
    user[..n]
  }

  function ToEngineJid(jid: string): string {
    if At(jid) == |jid| || Domain(jid) != BAILEYS_DOMAIN then jid
    else Bare(jid[..At(jid)]) + "@" + ENGINE_DOMAIN
  }

  function ToBaileysJid(jid: string): string {
    if At(jid) == |jid| || Domain(jid) != ENGINE_DOMAIN then jid
    else jid[..At(jid)] + "@" + BAILEYS_DOMAIN
  }

  lemma AtOf(user: string, domain: string)
    requires '@' !in user
    ensures At(user + "@" + domain) == |user| && Domain(user + "@" + domain) == domain
    ensures (user + "@" + domain)[..|user|] == user
  {
    assert user + "@" + domain == user + ("@" + domain);
    SpanOfConcat(user, "@" + domain, c => c != '@');
  }

  lemma Rejoin(jid: string)
    requires At(jid) < |jid|
    ensures jid == jid[..At(jid)] + "@" + Domain(jid) && '@' !in jid[..At(jid)]
  {
  }

  /** Converting to the library's form and back gives the same address, exactly when it was not already
      in the library's form and is not a phone address with a device number. */
  lemma EngineRoundTrip(jid: string)
    ensures ToEngineJid(ToBaileysJid(jid)) == jid
            <==> At(jid) == |jid|
                 || (Domain(jid) != BAILEYS_DOMAIN && !(Domain(jid) == ENGINE_DOMAIN && ':' in jid[..At(jid)]))
  {
    if At(jid) < |jid| {
      Rejoin(jid);
      var user := jid[..At(jid)];
      AtOf(user, BAILEYS_DOMAIN);
      if Domain(jid) == BAILEYS_DOMAIN {
        AtOf(Bare(user), ENGINE_DOMAIN);
      } else if Domain(jid) == ENGINE_DOMAIN && Bare(user) + "@" + ENGINE_DOMAIN == jid {
        AtOf(Bare(user), ENGINE_DOMAIN);
      }
    }
  }

  /** And the other way round. */
  lemma BaileysRoundTrip(jid: string)
    ensures ToBaileysJid(ToEngineJid(jid)) == jid
            <==> At(jid) == |jid|
                 || (Domain(jid) != ENGINE_DOMAIN && !(Domain(jid) == BAILEYS_DOMAIN && ':' in jid[..At(jid)]))
  {
    if At(jid) < |jid| {
      Rejoin(jid);
      var user := jid[..At(jid)];
      AtOf(Bare(user), ENGINE_DOMAIN);
      AtOf(Bare(user), BAILEYS_DOMAIN);
      AtOf(user, BAILEYS_DOMAIN);
    }
  }
}
