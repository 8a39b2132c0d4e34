/**
 * The challenge-response authenticator ("wampcra"): a user name and a
 * secret, and the response to a router's challenge, which is the base64
 * encoding (section 4 of RFC 4648) of HMAC-SHA256 (RFC 2104) keyed with the
 * Latin-1 bytes of the secret. When no secret is configured the password
 * the credential store holds for the parent connection's url is used.
 */
module WampCra {
  import opened Values
  import KeyDerivation

  const AUTH_METHOD := "wampcra"

  /** The library routines the response is built from: HMAC-SHA256 and base64 encoding. */
  datatype Crypto = Crypto(hmac: KeyDerivation.Mac, base64: Bytes -> string)

  /** The operating system's credential store: the user name and the password saved for a url. */
  datatype CredentialStore = CredentialStore(readUsername: string -> string, readPassword: string -> string)

  /** The key of the response: the configured secret, or the stored password when none is configured. */
  function ResolveSecret(configured: string, stored: string): string {
    if configured != "" then configured else stored
  }

  /** base64(HMAC-SHA256(latin1(secret), challenge)). */
  function CraResponse(crypto: Crypto, secret: string, challenge: Bytes): string {
    crypto.base64(crypto.hmac(Latin1(secret), challenge))
  }

  /**
   * A WAMP-CRA user. `name` belongs to the User base class. user.h is not
   * modelled; only the name and its setter are used. `hasParent`
   * says whether the user was given a parent object, which the response
   * takes to be the connection whose url keys the credential store.
   */
  class WampCraUser {
    var name: string
    var secret: string
    const hasParent: bool

    function Name(): string
      reads this
    {
      name
    }

    function Secret(): string
      reads this
    {
      secret
    }

    /** `WampCraUser(parent)`: no name and no secret. */
    constructor Default(hasParent: bool)
      ensures Name() == "" && Secret() == "" && this.hasParent == hasParent
    {
      name := "";
      secret := "";
      this.hasParent := hasParent;
    }

    /** `WampCraUser(name, secret, parent)`: both values are stored. */
    constructor (name: string, secret: string, hasParent: bool)
      ensures Name() == name && Secret() == secret && this.hasParent == hasParent
    {
      this.name := name;
      this.secret := secret;
      this.hasParent := hasParent;
    }

    method SetSecret(value: string)
      modifies this
      ensures Secret() == value && Name() == old(Name())
    {
      secret := value;
    }

    /** User::setName. */
    method SetName(value: string)
      modifies this
      ensures Name() == value && Secret() == old(Secret())
    {
      name := value;
    }

    /** The method advertised in HELLO. */
    function AuthMethod(): (m: string)
      ensures m == "wampcra"
    {
      AUTH_METHOD
    }

    /**
     * The response to `challenge`. With no secret configured the stored
     * password for `parentUrl` is read, which needs a parent: the source
     * dereferences the parent pointer without a check.
     */
    method Response(challenge: Bytes, parentUrl: string, store: CredentialStore, crypto: Crypto)
      returns (r: string)
      requires Secret() != "" || hasParent
      ensures Secret() != "" ==> r == CraResponse(crypto, Secret(), challenge)
      ensures Secret() == "" ==> r == CraResponse(crypto, store.readPassword(parentUrl), challenge)
    {
      var key := secret;
      if key == "" {
        key := store.readPassword(parentUrl);
      }
      r := crypto.base64(crypto.hmac(Latin1(key), challenge));
    }
  }
}
