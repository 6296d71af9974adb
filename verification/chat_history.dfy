/** The chat-history routes: a document store keyed by the user's email,
    each entry an ordered list of encrypted message records. The symmetric
    cipher and the message (de)serialisation are library code; they enter
    as values of `Cipher` and `Codec`, and what the proofs assume of them is
    stated by `CipherRoundTrips` and `CodecRoundTrips`. The store is generic
    in the message type `M`; `MessageCodec` gives messages the shape of the
    JSON values a request body carries. */
module ChatHistory {
  import opened Http
  import Auth

  /** The process-wide cipher: `decrypt` yields None where the library
      raises `InvalidToken` (tampered ciphertext or wrong key). */
  datatype Cipher = Cipher(encrypt: string -> string, decrypt: string -> Option<string>)

  /** Turning a message into text and back; `parse` yields None where
      parsing raises. */
  datatype Codec<!M> = Codec(serialise: M -> string, parse: string -> Option<M>)

  ghost predicate CipherRoundTrips(c: Cipher) {
    forall x :: c.decrypt(c.encrypt(x)) == Some(x)
  }

  ghost predicate CodecRoundTrips<M(!new)>(k: Codec<M>) {
    forall m :: k.parse(k.serialise(m)) == Some(m)
  }

  /** A stored record: a document with the one key `encrypted_message`. */
  datatype EncryptedRecord = EncryptedRecord(encryptedMessage: string)

  /** The collection: one entry per user email, holding its records. */
  type Store = map<string, seq<EncryptedRecord>>

  /** `encrypt_message`: the ciphertext of the serialised message. */
  function EncryptMessage<M>(c: Cipher, k: Codec<M>, m: M): EncryptedRecord {
    EncryptedRecord(c.encrypt(k.serialise(m)))
  }

  /** `decrypt_message`: decrypt, then parse; None when either step fails. */
  function DecryptMessage<M>(c: Cipher, k: Codec<M>, rec: EncryptedRecord): Option<M> {
    match c.decrypt(rec.encryptedMessage)
    case None => None
    case Some(text) => k.parse(text)
  }

  /** A record made by `encrypt_message` decrypts back to its message. */
  lemma DecryptEncrypt<M(!new)>(c: Cipher, k: Codec<M>, m: M)
    requires CipherRoundTrips(c) && CodecRoundTrips(k)
    ensures DecryptMessage(c, k, EncryptMessage(c, k, m)) == Some(m)
  {
  }

  /** Each message encrypted on its own, in order. */
  function EncryptAll<M>(c: Cipher, k: Codec<M>, msgs: seq<M>): (r: seq<EncryptedRecord>)
    ensures |r| == |msgs|
    ensures forall i :: 0 <= i < |msgs| ==> r[i] == EncryptMessage(c, k, msgs[i])
  {
    seq(|msgs|, i requires 0 <= i < |msgs| => EncryptMessage(c, k, msgs[i]))
  }

  /** The stored records decrypted in order; the first record that fails
      makes the whole read fail with an uncaught exception (500), with no
      partial list. */
  function DecryptAll<M>(c: Cipher, k: Codec<M>, recs: seq<EncryptedRecord>): (r: Result<seq<M>>)
    ensures r.Ok? ==> |r.value| == |recs|
    ensures r.Ok? ==> forall i :: 0 <= i < |recs| ==> DecryptMessage(c, k, recs[i]) == Some(r.value[i])
    ensures r.Err? <==> exists i :: 0 <= i < |recs| && DecryptMessage(c, k, recs[i]).None?
    ensures r.Err? ==> r.error == HttpError(InternalServerError, UncaughtDetail)
    decreases |recs|
  {
    if recs == [] then Ok([])
    else
      match DecryptMessage(c, k, recs[0])
      case None => Err(HttpError(InternalServerError, UncaughtDetail))
      case Some(m) =>
        match DecryptAll(c, k, recs[1..])
        case Err(e) => Err(e)
        case Ok(rest) =>
          assert forall i :: 1 <= i < |recs| ==> recs[i] == recs[1..][i - 1];
          Ok([m] + rest)
  }

  /** Saving a user's chat: their entry becomes exactly the encrypted list,
      inserted when absent; every other entry is left as it was. */
  function Save<M>(c: Cipher, k: Codec<M>, store: Store, email: string, msgs: seq<M>): (r: Store)
    ensures r.Keys == store.Keys + {email}
    ensures |r[email]| == |msgs|
    ensures forall i :: 0 <= i < |msgs| ==> r[email][i] == EncryptMessage(c, k, msgs[i])
    ensures forall e :: e in store && e != email ==> r[e] == store[e]
  {
    store[email := EncryptAll(c, k, msgs)]
  }

  /** Reading a user's chat: empty when there is no entry, else the
      decrypted entry, one message per record. */
  function Load<M>(c: Cipher, k: Codec<M>, store: Store, email: string): (r: Result<seq<M>>)
    ensures email !in store ==> r == Ok([])
    ensures email in store && r.Ok? ==> |r.value| == |store[email]|
    ensures email in store && r.Ok? ==>
      forall i :: 0 <= i < |r.value| ==> DecryptMessage(c, k, store[email][i]) == Some(r.value[i])
    ensures email in store ==>
      (r.Err? <==> exists i :: 0 <= i < |store[email]| && DecryptMessage(c, k, store[email][i]).None?)
  {
    if email !in store then Ok([]) else DecryptAll(c, k, store[email])
  }

  /** Decrypting what was encrypted gives back the messages, in order. */
  lemma {:induction false} DecryptAllEncryptAll<M(!new)>(c: Cipher, k: Codec<M>, msgs: seq<M>)
    requires CipherRoundTrips(c) && CodecRoundTrips(k)
    ensures DecryptAll(c, k, EncryptAll(c, k, msgs)) == Ok(msgs)
    decreases |msgs|
  {
    var recs := EncryptAll(c, k, msgs);
    if msgs != [] {
      DecryptEncrypt(c, k, msgs[0]);
      assert recs[1..] == EncryptAll(c, k, msgs[1..]);
      DecryptAllEncryptAll(c, k, msgs[1..]);
      assert msgs == [msgs[0]] + msgs[1..];
    }
  }

  /** Load after save returns exactly the saved messages. */
  lemma LoadAfterSave<M(!new)>(c: Cipher, k: Codec<M>, store: Store, email: string, msgs: seq<M>)
    requires CipherRoundTrips(c) && CodecRoundTrips(k)
    ensures Load(c, k, Save(c, k, store, email, msgs), email) == Ok(msgs)
  {
    DecryptAllEncryptAll(c, k, msgs);
  }

  /** Saving replaces rather than appends: of two saves for one user only
      the second is kept. */
  lemma SaveTwice<M>(c: Cipher, k: Codec<M>, store: Store, email: string, first: seq<M>, second: seq<M>)
    ensures Save(c, k, Save(c, k, store, email, first), email, second) == Save(c, k, store, email, second)
  {
  }

  /** Saving one user's chat does not change what another user reads. */
  lemma SaveIsolated<M>(c: Cipher, k: Codec<M>, store: Store, email: string, other: string, msgs: seq<M>)
    requires other != email
    ensures Load(c, k, Save(c, k, store, email, msgs), other) == Load(c, k, store, other)
  {
  }

  /** The acknowledgement `POST /chat-history` returns with the new store. */
  datatype Saved = Saved(store: Store, status: string)

  /** `POST /chat-history`: the caller is whoever `/me` accepts the token
      for; their entry is replaced by the encrypted messages. */
  function SaveChatHistory<M>(jwt: Auth.Jwt, token: string, now: int, c: Cipher, k: Codec<M>,
                              store: Store, msgs: seq<M>): (r: Result<Saved>)
    ensures r.Err? <==> Auth.GetCurrentUser(jwt, token, now).Err?
    ensures r.Err? ==> r.error.status == Unauthorized
    ensures r.Ok? ==> r.value.store == Save(c, k, store, Auth.SeededEmail, msgs)
  {
    match Auth.GetCurrentUser(jwt, token, now)
    case Err(e) => Err(e)
    case Ok(user) => Ok(Saved(Save(c, k, store, user.email, msgs), "Chat history saved"))
  }

  /** `GET /chat-history`: the caller's decrypted entry. */
  function GetChatHistory<M>(jwt: Auth.Jwt, token: string, now: int, c: Cipher, k: Codec<M>,
                             store: Store): (r: Result<seq<M>>)
    ensures Auth.GetCurrentUser(jwt, token, now).Err? ==> r.Err? && r.error.status == Unauthorized
    ensures Auth.GetCurrentUser(jwt, token, now).Ok? ==> r == Load(c, k, store, Auth.SeededEmail)
  {
    match Auth.GetCurrentUser(jwt, token, now)
    case Err(e) => Err(e)
    case Ok(user) => Load(c, k, store, user.email)
  }

  /** Because `/me` accepts only the seeded account, the store never gains
      an entry for any other email through the routes. */
  lemma OnlySeededEntries<M>(jwt: Auth.Jwt, token: string, now: int, c: Cipher, k: Codec<M>,
                             store: Store, msgs: seq<M>)
    requires store.Keys <= {Auth.SeededEmail}
    requires SaveChatHistory(jwt, token, now, c, k, store, msgs).Ok?
    ensures SaveChatHistory(jwt, token, now, c, k, store, msgs).value.store.Keys == {Auth.SeededEmail}
  {
  }

  /** Through the routes: a login token saves a chat, and reading it back
      with the same token within its lifetime returns the same messages. */
  lemma RoutesRoundTrip<M(!new)>(h: Auth.Hasher, jwt: Auth.Jwt, now: int, at: int, c: Cipher, k: Codec<M>,
                           store: Store, msgs: seq<M>)
    requires Auth.HasherSound(h) && Auth.JwtSound(jwt)
    requires CipherRoundTrips(c) && CodecRoundTrips(k)
    requires now <= at <= now + Auth.TokenTtl
    ensures Auth.Login(h, jwt, Auth.LoginRequest(Auth.SeededEmail, Auth.SeededPassword), now).Ok?
    ensures var token := Auth.Login(h, jwt, Auth.LoginRequest(Auth.SeededEmail, Auth.SeededPassword), now).value.token;
            var saved := SaveChatHistory(jwt, token, at, c, k, store, msgs);
            saved.Ok? && GetChatHistory(jwt, token, at, c, k, saved.value.store) == Ok(msgs)
  {
    Auth.LoginThenMe(h, jwt, now, at);
    LoadAfterSave(c, k, store, Auth.SeededEmail, msgs);
  }
}
