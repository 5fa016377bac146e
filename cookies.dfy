/**
 * CookieAuthenticationPersistence: the XWIKITRUSTEDAUTH cookie that carries the user id,
 * TripleDES-encrypted, base64-encoded with `=` swapped for `_`, set for the first configured
 * cookie domain the server name falls under. The cipher itself is a pair of byte transforms
 * the model takes as given; the text layer around it is modelled exactly.
 */
module Cookies {
  import opened Wrappers
  import opened Text
  import opened Base64

  const CookiePrefixProperty := "xwiki.idoauth.cookieprefix"
  const CookiePathProperty := "xwiki.idoauth.cookiepath"
  const CookieDomainsProperty := "xwiki.idoauth.cookiedomains"
  const EncryptionKeyProperty := "xwiki.idoauth.encryptionKey"
  const XWikiEncryptionKeyProperty := "xwiki.authentication.encryptionKey"
  const AuthenticationCookie := "XWIKITRUSTEDAUTH"
  const GuestUser := "XWikiGuest"
  const CookieMaxAge := 3600
  /** TripleDES takes a key of 24 bytes: shorter keys are refused, longer ones cut. */
  const KeyLength := 24

  /** Cipher.doFinal in one mode: the bytes it produces, or the exception it throws. */
  type Transform = seq<byte> -> Outcome<seq<byte>>

  /** The decryption cipher undoes whatever the encryption cipher accepts. */
  ghost predicate Inverse(enc: Transform, dec: Transform) {
    forall b :: enc(b).Ok? ==> dec(enc(b).value) == Ok(b)
  }

  /** String.getBytes in ISO-8859-1: one byte per character, `?` for a character above 255. */
  function Latin1Bytes(s: string): (b: seq<byte>)
    ensures |b| == |s|
  {
    seq(|s|, i requires 0 <= i < |s| => if s[i] as int < 256 then s[i] as int else '?' as int)
  }

  /** new String(bytes) in ISO-8859-1: each byte is the character of that code. */
  function Latin1Text(b: seq<byte>): (s: string)
    ensures |s| == |b|
  {
    seq(|b|, i requires 0 <= i < |b| => b[i] as char)
  }

  predicate IsLatin1(s: string) {
    forall i :: 0 <= i < |s| ==> s[i] as int < 256
  }

  /** Reading back the bytes of a decoded text gives the bytes. */
  lemma Latin1BytesOfText(b: seq<byte>)
    ensures Latin1Bytes(Latin1Text(b)) == b
  {
  }

  /** A text within ISO-8859-1 survives the trip through its bytes; no other text does. */
  lemma Latin1TextOfBytes(s: string)
    ensures Latin1Text(Latin1Bytes(s)) == s <==> IsLatin1(s)
  {
    if !IsLatin1(s) {
      var i :| 0 <= i < |s| && s[i] as int >= 256;
      assert Latin1Text(Latin1Bytes(s))[i] == '?';
    }
  }

  /** conformCookieDomain: a leading dot, as section 4.2.2 of RFC 2109 wants, unless one is there or the domain is null. */
  function ConformCookieDomain(d: Option<string>): (r: Option<string>)
    ensures r.None? <==> d.None?
    ensures r.Some? ==> StartsWith(r.value, ".") && EndsWith(r.value, d.value)
    ensures r.Some? ==> |r.value| == |d.value| + (if StartsWith(d.value, ".") then 0 else 1)
  {
    if d.Some? && !StartsWith(d.value, ".") then Some("." + d.value) else d
  }

  /** Conforming twice is conforming once. */
  lemma ConformIdempotent(d: Option<string>)
    ensures ConformCookieDomain(ConformCookieDomain(d)) == ConformCookieDomain(d)
  {
    var r := ConformCookieDomain(d);
    if r.Some? {
      assert StartsWith(r.value, ".");
    }
  }

  /**
   * getEncryptionKey: the idoauth key, else the xwiki.cfg key, else the permanent configuration's
   * key; the first one found decides, and it must hold at least 24 characters.
   */
  function GetEncryptionKey(cfg: map<string, string>, permanent: Option<map<string, string>>): (r: Outcome<string>)
    ensures r.Ok? ==> |r.value| >= KeyLength
    ensures EncryptionKeyProperty in cfg ==>
      (r.Ok? <==> |cfg[EncryptionKeyProperty]| >= KeyLength) && (r.Ok? ==> r.value == cfg[EncryptionKeyProperty])
    ensures EncryptionKeyProperty !in cfg && XWikiEncryptionKeyProperty in cfg ==>
      (r.Ok? <==> |cfg[XWikiEncryptionKeyProperty]| >= KeyLength) && (r.Ok? ==> r.value == cfg[XWikiEncryptionKeyProperty])
    ensures r == Fail(MissingEncryptionKey) <==>
      EncryptionKeyProperty !in cfg && XWikiEncryptionKeyProperty !in cfg
      && (permanent.None? || XWikiEncryptionKeyProperty !in permanent.value)
    ensures r.Fail? ==> r.error == MissingEncryptionKey || r.error == ShortEncryptionKey
  {
    var key :=
      if EncryptionKeyProperty in cfg then Some(cfg[EncryptionKeyProperty])
      else if XWikiEncryptionKeyProperty in cfg then Some(cfg[XWikiEncryptionKeyProperty])
      else if permanent.Some? && XWikiEncryptionKeyProperty in permanent.value then Some(permanent.value[XWikiEncryptionKeyProperty])
      else None;
    if key.None? then Fail(MissingEncryptionKey)
    else if |key.value| < KeyLength then Fail(ShortEncryptionKey)
    else Ok(key.value)
  }

  /** The key bytes getCipher hands to the cipher: the first 24 bytes of the key. */
  function KeyBytes(key: string): (b: seq<byte>)
    requires |key| >= KeyLength
    ensures |b| == KeyLength
    ensures IsLatin1(key[..KeyLength]) ==> Latin1Text(b) == key[..KeyLength]
  {
    Latin1TextOfBytes(key[..KeyLength]);
    Latin1Bytes(key)[..KeyLength]
  }

  /**
   * encryptText: the cipher's output in base64 with every `=` turned into `_`; when there is no
   * cipher or it throws, the plain text itself.
   */
  function EncryptText(enc: Option<Transform>, text: string): (r: string)
    ensures enc.None? ==> r == text
    ensures enc.Some? && enc.value(Latin1Bytes(text)).Fail? ==> r == text
    ensures enc.Some? && enc.value(Latin1Bytes(text)).Ok? ==> '=' !in r
  {
    if enc.None? then text
    else
      match enc.value(Latin1Bytes(text))
      case Fail(_) => text
      case Ok(c) =>
        ReplaceCharAt(Encode(c), '=', '_');
        ReplaceAll(Encode(c), "=", "_")
  }

  /**
   * decryptText: null stays null; otherwise `_` goes back to `=`, the text is base64-decoded and
   * decrypted. Any failure answers the cookie text itself.
   */
  function DecryptText(dec: Option<Transform>, text: Option<string>): (r: Option<string>)
    ensures r.None? <==> text.None?
    ensures text.Some? && dec.None? ==> r == text
  {
    if text.None? then None
    else if dec.None? then text
    else
      match dec.value(Decoded(text.value))
      case Fail(_) => text
      case Ok(plain) => Some(Latin1Text(plain))
  }

  /** The base64 text decryptText decodes: `_` back to `=`, through ISO-8859-1 bytes. */
  function Decoded(text: string): seq<byte> {
    Decode(Latin1Text(Latin1Bytes(ReplaceAll(text, "_", "="))))
  }

  /** The `=`/`_` substitution round-trips on any base64 output, since the encoder never writes `_`. */
  lemma SubstitutionRoundTrip(c: seq<byte>)
    ensures Decoded(ReplaceAll(Encode(c), "=", "_")) == c
  {
    var e := Encode(c);
    EncodeAvoids(c, '_');
    ReplaceCharRoundTrip(e, '=', '_');
    assert IsLatin1(e);
    Latin1TextOfBytes(e);
    DecodeEncode(c);
  }

  /**
   * A user id within ISO-8859-1 that the encryption cipher accepts comes back from the cookie
   * it produced, when the decryption cipher inverts the encryption cipher.
   */
  lemma CookieRoundTrip(enc: Transform, dec: Transform, uid: string)
    requires Inverse(enc, dec) && IsLatin1(uid) && enc(Latin1Bytes(uid)).Ok?
    ensures DecryptText(Some(dec), Some(EncryptText(Some(enc), uid))) == Some(uid)
  {
    var c := enc(Latin1Bytes(uid)).value;
    SubstitutionRoundTrip(c);
    assert dec(c) == Ok(Latin1Bytes(uid));
    Latin1TextOfBytes(uid);
  }

  /** A cookie that does not decrypt is answered as the user id it spells: decryptText fails open. */
  lemma DecryptFailsOpen(dec: Transform, text: string)
    requires dec(Decoded(text)).Fail?
    ensures DecryptText(Some(dec), Some(text)) == Some(text)
  {
  }

  /** The comma-separated entries of the cookie-domains property; none when it is absent. */
  function DomainList(cfg: map<string, string>): seq<string> {
    if CookieDomainsProperty in cfg then Split(cfg[CookieDomainsProperty], ',') else []
  }

  /** Each entry conformed, in order. */
  function Conformed(cdlist: seq<string>): (ds: seq<string>)
    ensures |ds| == |cdlist|
    ensures forall i :: 0 <= i < |ds| ==> StartsWith(ds[i], ".") && EndsWith(ds[i], cdlist[i])
  {
    seq(|cdlist|, i requires 0 <= i < |cdlist| => ConformCookieDomain(Some(cdlist[i])).value)
  }

  /** The domain array initialize builds: null when no domain is configured. */
  method MakeDomains(cdlist: seq<string>) returns (a: array?<string>)
    ensures cdlist == [] ==> a == null
    ensures cdlist != [] ==> a != null && fresh(a) && a[..] == Conformed(cdlist)
  {
    if |cdlist| == 0 {
      return null;
    }
    var domains := new string[|cdlist|];
    var i := 0;
    while i < |cdlist|
      invariant 0 <= i <= |cdlist|
      invariant forall j :: 0 <= j < i ==> domains[j] == ConformCookieDomain(Some(cdlist[j])).value
    {
      domains[i] := ConformCookieDomain(Some(cdlist[i])).value;
      i := i + 1;
    }
    a := domains;
  }

  /** The first domain in `ds` that the conformed server name ends with. */
  function FirstSuffix(server: string, ds: seq<string>): Option<string> {
    if ds == [] then None
    else if EndsWith(server, ds[0]) then Some(ds[0])
    else FirstSuffix(server, ds[1..])
  }

  /** FirstSuffix answers a matching domain with none before it, or none when no domain matches. */
  lemma {:induction false} FirstSuffixFirst(server: string, ds: seq<string>)
    ensures FirstSuffix(server, ds).Some? ==>
      exists i :: 0 <= i < |ds| && ds[i] == FirstSuffix(server, ds).value && EndsWith(server, ds[i])
        && forall j :: 0 <= j < i ==> !EndsWith(server, ds[j])
    ensures FirstSuffix(server, ds).None? <==> forall d :: d in ds ==> !EndsWith(server, d)
  {
    if ds != [] {
      FirstSuffixFirst(server, ds[1..]);
      if !EndsWith(server, ds[0]) && FirstSuffix(server, ds[1..]).Some? {
        var i :| 0 <= i < |ds[1..]| && ds[1..][i] == FirstSuffix(server, ds[1..]).value && EndsWith(server, ds[1..][i])
          && forall j :: 0 <= j < i ==> !EndsWith(server, ds[1..][j]);
        assert ds[i + 1] == ds[1..][i];
        assert forall j :: 0 <= j < i + 1 ==> !EndsWith(server, ds[j]) by {
          forall j | 0 <= j < i + 1 ensures !EndsWith(server, ds[j]) {
            if j > 0 {
              assert ds[j] == ds[1..][j - 1];
            }
          }
        }
      }
      assert ds == [ds[0]] + ds[1..];
    }
  }

  /** The parts of the servlet request the cookie layer reads. */
  datatype Request = Request(serverName: string, secure: bool, cookies: map<string, string>)

  /** The cookie handed to the response. */
  datatype Cookie = Cookie(name: string, value: string, maxAge: int, path: string, domain: Option<string>, secure: bool)

  class CookiePersistence {
    var cookiePrefix: string
    var cookiePath: string
    var cookieDomains: array?<string>
    var encryptionKey: Option<string>
    var encryption: Option<Transform>
    var decryption: Option<Transform>

    constructor ()
      ensures cookiePrefix == "" && cookiePath == "" && cookieDomains == null
      ensures encryptionKey.None? && encryption.None? && decryption.None?
    {
      cookiePrefix, cookiePath, cookieDomains := "", "", null;
      encryptionKey, encryption, decryption := None, None, None;
    }

    /**
     * initialize: prefix (default "") and path (default "/"), the key, the conformed domains
     * (null when none are configured), then the two ciphers from the key's first 24 bytes. A
     * missing or short key raises before the key, the domains and the ciphers are touched; a
     * cipher that cannot be built raises with the decryption cipher as it was, and the
     * encryption cipher already replaced when only the decryption one failed.
     */
    method Initialize(cfg: map<string, string>, permanent: Option<map<string, string>>,
                      makeCipher: (seq<byte>, bool) -> Outcome<Transform>) returns (r: Outcome<()>)
      modifies this
      ensures cookiePrefix == (if CookiePrefixProperty in cfg then cfg[CookiePrefixProperty] else "")
      ensures cookiePath == (if CookiePathProperty in cfg then cfg[CookiePathProperty] else "/")
      ensures GetEncryptionKey(cfg, permanent).Fail? ==>
        r == Fail(GetEncryptionKey(cfg, permanent).error) && cookieDomains == old(cookieDomains) && encryptionKey == old(encryptionKey)
        && encryption == old(encryption) && decryption == old(decryption)
      ensures GetEncryptionKey(cfg, permanent).Ok? ==>
        var key := GetEncryptionKey(cfg, permanent).value;
        encryptionKey == Some(key)
        && (DomainList(cfg) == [] ==> cookieDomains == null)
        && (DomainList(cfg) != [] ==> cookieDomains != null && fresh(cookieDomains) && cookieDomains[..] == Conformed(DomainList(cfg)))
        && (r.Ok? <==> makeCipher(KeyBytes(key), true).Ok? && makeCipher(KeyBytes(key), false).Ok?)
        && (r.Ok? ==> encryption == Some(makeCipher(KeyBytes(key), true).value)
                      && decryption == Some(makeCipher(KeyBytes(key), false).value))
        && (r.Fail? ==> r.error == CipherInit && decryption == old(decryption)
                        && encryption == (if makeCipher(KeyBytes(key), true).Fail? then old(encryption)
                                          else Some(makeCipher(KeyBytes(key), true).value)))
    {
      cookiePrefix := if CookiePrefixProperty in cfg then cfg[CookiePrefixProperty] else "";
      cookiePath := if CookiePathProperty in cfg then cfg[CookiePathProperty] else "/";
      var key := GetEncryptionKey(cfg, permanent);
      if key.Fail? {
        return Fail(key.error);
      }
      encryptionKey := Some(key.value);
      cookieDomains := MakeDomains(DomainList(cfg));
      var e := makeCipher(KeyBytes(key.value), true);
      if e.Fail? {
        return Fail(CipherInit);
      }
      encryption := Some(e.value);
      var d := makeCipher(KeyBytes(key.value), false);
      if d.Fail? {
        return Fail(CipherInit);
      }
      decryption := Some(d.value);
      r := Ok(());
    }

    /** The domain getCookieDomain picks for a server name. */
    function CookieDomain(serverName: string): Option<string>
      reads this, cookieDomains
    {
      if cookieDomains == null then None
      else FirstSuffix(ConformCookieDomain(Some(serverName)).value, cookieDomains[..])
    }

    /**
     * getCookieDomain: the first configured domain the conformed server name ends with, or
     * null when none matches or none is configured.
     */
    method GetCookieDomain(serverName: string) returns (d: Option<string>)
      ensures d == CookieDomain(serverName)
      ensures d.Some? ==>
        cookieDomains != null && d.value in cookieDomains[..] && EndsWith(ConformCookieDomain(Some(serverName)).value, d.value)
    {
      d := None;
      if cookieDomains != null {
        var server := ConformCookieDomain(Some(serverName)).value;
        var i := 0;
        while i < cookieDomains.Length
          invariant 0 <= i <= cookieDomains.Length
          invariant FirstSuffix(server, cookieDomains[..]) == FirstSuffix(server, cookieDomains[i..])
        {
          assert cookieDomains[i..] == [cookieDomains[i]] + cookieDomains[i + 1..];
          if EndsWith(server, cookieDomains[i]) {
            d := Some(cookieDomains[i]);
            break;
          }
          i := i + 1;
        }
        FirstSuffixFirst(server, cookieDomains[..]);
      }
    }

    /**
     * setUserId: the prefixed XWIKITRUSTEDAUTH cookie holding the encrypted id, for an hour, on
     * the configured path, for the matching domain if any, secure iff the request is.
     */
    method SetUserId(uid: string, request: Request) returns (c: Cookie)
      ensures c.name == cookiePrefix + AuthenticationCookie && c.value == EncryptText(encryption, uid)
      ensures c.maxAge == CookieMaxAge && c.path == cookiePath && c.secure == request.secure
      ensures c.domain == CookieDomain(request.serverName)
    {
      var domain := GetCookieDomain(request.serverName);
      c := Cookie(cookiePrefix + AuthenticationCookie, EncryptText(encryption, uid), CookieMaxAge, cookiePath, domain, request.secure);
    }

    /** clear: the cookie now names the guest. */
    method Clear(request: Request) returns (c: Cookie)
      ensures c.name == cookiePrefix + AuthenticationCookie && c.value == EncryptText(encryption, GuestUser)
      ensures c.maxAge == CookieMaxAge && c.path == cookiePath && c.secure == request.secure
      ensures c.domain == CookieDomain(request.serverName)
    {
      c := SetUserId(GuestUser, request);
    }

    /** getUserId: the decrypted value of the prefixed cookie; null without a request or a cookie. */
    function GetUserId(request: Option<Request>): (r: Option<string>)
      reads this
      ensures r.Some? ==> request.Some? && cookiePrefix + AuthenticationCookie in request.value.cookies
    {
      var name := cookiePrefix + AuthenticationCookie;
      var value := if request.Some? && name in request.value.cookies then Some(request.value.cookies[name]) else None;
      DecryptText(decryption, value)
    }
  }

  /**
   * A cookie set for a user id is read back as that id by the next request carrying it, when
   * the two ciphers invert each other and encryption succeeds.
   */
  lemma SetThenGet(p: CookiePersistence, uid: string, c: Cookie, next: Request)
    requires p.encryption.Some? && p.decryption.Some? && Inverse(p.encryption.value, p.decryption.value)
    requires IsLatin1(uid) && p.encryption.value(Latin1Bytes(uid)).Ok?
    requires c.name == p.cookiePrefix + AuthenticationCookie && c.value == EncryptText(p.encryption, uid)
    requires c.name in next.cookies && next.cookies[c.name] == c.value
    ensures p.GetUserId(Some(next)) == Some(uid)
  {
    CookieRoundTrip(p.encryption.value, p.decryption.value, uid);
  }
}
