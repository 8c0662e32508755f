/** apps/api/src/wallet/signer.service.ts and wallet-provision.service.ts: a wallet's key from the moment it is
  * generated and stored to the moment it signs. */
module SignerService {
  import opened Domain
  import opened Base64
  import opened Envelope

  datatype WalletRow = WalletRow(walletType: WalletType, address: Address, encryptedPrivateKey: Option<string>)

  /** An ethers wallet: a private key, and the address that belongs to it. */
  datatype Signer = Signer(privateKey: Bytes, address: Address)

  datatype SignerError = UnsupportedType | KeyDecryptionFailed | PrivateKeyInvalid | AddressMismatch | EncryptedKeyMissing

  datatype Signing = Signs(signer: Signer) | Refuses(error: SignerError)

  /** What the process is configured with: the cipher, WALLET_ENCRYPTION_KEY, the address of each valid private key,
    * and the shared signer from the environment. */
  datatype Config = Config(aead: Aead, env: Option<string>, addressOf: Bytes -> Option<Address>, shared: Signer)

  ghost predicate Configured(c: Config) {
    Envelope.Lawful(c.aead) && c.addressOf(c.shared.privateKey) == Some(c.shared.address)
  }

  predicate SignsLocally(t: WalletType) { t.BACKEND_SEC? || t.MULTISIG? }

  /** An empty text counts as no key. */
  predicate HasEncryptedKey(w: WalletRow) { w.encryptedPrivateKey.Some? && w.encryptedPrivateKey.value != "" }

  function GetSignerForWallet(c: Config, w: WalletRow): Signing {
    if !w.walletType.BACKEND_SEC? && !w.walletType.MULTISIG? then Refuses(UnsupportedType)
    else if HasEncryptedKey(w) then CreateSignerFromEncryptedKey(c, w.address, w.encryptedPrivateKey.value)
    else GetLegacySharedSignerFallback(c, w)
  }

  function CreateSignerFromEncryptedKey(c: Config, walletAddress: Address, encryptedPrivateKey: string): Signing {
    var privateKey := DecryptPrivateKey(c.aead, c.env, encryptedPrivateKey);
    if privateKey.Err? then Refuses(KeyDecryptionFailed)
    else
      var derived := c.addressOf(privateKey.value);
      if derived.None? then Refuses(PrivateKeyInvalid)
      else if derived.value != walletAddress then Refuses(AddressMismatch)
      else Signs(Signer(privateKey.value, derived.value))
  }

  function GetLegacySharedSignerFallback(c: Config, w: WalletRow): Signing {
    if c.shared.address != w.address then Refuses(EncryptedKeyMissing) else Signs(c.shared)
  }

  /** A wallet signs with the key that is encrypted in its row, or, without one, with the shared key; and only if that
    * key's address is the wallet's own. */
  ghost predicate MaySign(c: Config, w: WalletRow, s: Signer) {
    && SignsLocally(w.walletType) && s.address == w.address && c.addressOf(s.privateKey) == Some(w.address)
    && match w.encryptedPrivateKey
       case None => s == c.shared
       case Some(text) => if text == "" then s == c.shared else exists iv: Bytes :: Encrypts(c.aead, c.env, iv, s.privateKey, text)
  }

  lemma SignsExactlyAsAllowed(c: Config, w: WalletRow, s: Signer)
    requires Configured(c)
    ensures GetSignerForWallet(c, w) == Signs(s) <==> MaySign(c, w, s)
  {
    if HasEncryptedKey(w) { DecryptsOnlyEncryptions(c.aead, c.env, w.encryptedPrivateKey.value, s.privateKey); }
  }

  /** Why a wallet gets no signer. */
  lemma SignerRefused(c: Config, w: WalletRow)
    requires Configured(c)
    ensures
      var result := GetSignerForWallet(c, w);
      var local, stored := w.walletType.BACKEND_SEC? || w.walletType.MULTISIG?, w.encryptedPrivateKey.Some? && w.encryptedPrivateKey.value != "";
      var key := if stored then DecryptPrivateKey(c.aead, c.env, w.encryptedPrivateKey.value) else Err(InvalidPayload);
      && (result == Refuses(UnsupportedType) <==> !local)
      && (result == Refuses(EncryptedKeyMissing) <==> local && !stored && c.shared.address != w.address)
      && (result == Refuses(KeyDecryptionFailed) <==> local && stored && key.Err?)
      && (result == Refuses(PrivateKeyInvalid) <==> local && stored && key.Ok? && c.addressOf(key.value).None?)
      && (result == Refuses(AddressMismatch) <==>
            local && stored && key.Ok? && c.addressOf(key.value).Some? && c.addressOf(key.value) != Some(w.address))
  {
  }

  /** Whatever a row holds, no signer for it has another address than the row's. */
  lemma NeverAnotherAddress(c: Config, w: WalletRow)
    requires Configured(c) && GetSignerForWallet(c, w).Signs?
    ensures GetSignerForWallet(c, w).signer.address == w.address
    ensures c.addressOf(GetSignerForWallet(c, w).signer.privateKey) == Some(w.address)
  {
    SignsExactlyAsAllowed(c, w, GetSignerForWallet(c, w).signer);
  }

  /** A row as createUserWallet writes it. */
  lemma StoredKeySigns(c: Config, t: WalletType, privateKey: Bytes, iv: Bytes, address: Address)
    requires Configured(c) && SignsLocally(t) && |iv| == IV_LENGTH && c.addressOf(privateKey) == Some(address)
    requires EncryptPrivateKey(c.aead, c.env, iv, privateKey).Ok?
    ensures
      var w := WalletRow(t, address, Some(EncryptPrivateKey(c.aead, c.env, iv, privateKey).value));
      HasEncryptedKey(w) && GetSignerForWallet(c, w) == Signs(Signer(privateKey, address))
  {
    DecryptsWhatWasEncrypted(c.aead, c.env, iv, privateKey);
  }

  datatype Owned = Owned(user: string, walletType: WalletType)   // unique in the table

  datatype Provision = Created(row: WalletRow) | Conflict | InternalError

  /** The wallet table, and the service that adds to it. */
  class WalletProvision {
    const config: Config
    var rows: map<Owned, WalletRow>

    constructor (config: Config)
      ensures this.config == config && rows == map[]
    {
      this.config, rows := config, map[];
    }

    /** Every row with an encrypted key signs for its own address. */
    ghost predicate Valid()
      reads this
    {
      Configured(config) && AllSign(config, rows)
    }

    /** `key` is the private key that was generated, None if that failed; `meanwhile` are the rows that other calls insert
      * between this call's check and its insert; `reaches` is false when the insert fails for another reason. */
    method CreateUserWallet(user: string, t: WalletType, key: Option<Bytes>, iv: Bytes, meanwhile: map<Owned, WalletRow>, reaches: bool)
      returns (result: Provision)
      requires Valid() && SignsLocally(t) && |iv| == IV_LENGTH
      requires meanwhile.Keys !! rows.Keys && AllSign(config, meanwhile)
      requires key.Some? ==> config.addressOf(key.value).Some?
      modifies this
      ensures Valid()
      ensures result.Created? ==>
                && key.Some? && Owned(user, t) !in old(rows)
                && rows == (old(rows) + meanwhile)[Owned(user, t) := result.row] && Owned(user, t) !in meanwhile
                && result.row.walletType == t && config.addressOf(key.value) == Some(result.row.address)
                && GetSignerForWallet(config, result.row) == Signs(Signer(key.value, result.row.address))
      ensures result.Created? <==>
                && Owned(user, t) !in old(rows) && Owned(user, t) !in meanwhile
                && key.Some? && EncryptionKey(config.env).Ok? && reaches
      ensures result.Conflict? <==>
                || Owned(user, t) in old(rows)
                || (Owned(user, t) in meanwhile && key.Some? && EncryptionKey(config.env).Ok? && reaches)
      ensures result.Conflict? ==> Owned(user, t) in rows
      ensures !result.Created? ==> rows == if Owned(user, t) in old(rows) then old(rows) else old(rows) + meanwhile
      ensures Owned(user, t) in old(rows) ==> result.Conflict?
      ensures result.InternalError? ==> key.None? || EncryptionKey(config.env).Err? || !reaches
    {
      if Owned(user, t) in rows { return Conflict; }
      rows := rows + meanwhile;
      if key.None? { return InternalError; }
      var address := config.addressOf(key.value).value;
      var encrypted := EncryptPrivateKey(config.aead, config.env, iv, key.value);
      if encrypted.Err? { return InternalError; }
      if !reaches { return InternalError; }
      if Owned(user, t) in rows { return Conflict; }   // unique constraint
      var row := WalletRow(t, address, Some(encrypted.value));
      StoredKeySigns(config, t, key.value, iv, address);
      rows := rows[Owned(user, t) := row];
      result := Created(row);
    }
  }

  ghost predicate AllSign(c: Config, rows: map<Owned, WalletRow>) {
    forall o :: o in rows && HasEncryptedKey(rows[o]) ==> GetSignerForWallet(c, rows[o]).Signs? && GetSignerForWallet(c, rows[o]).signer.address == rows[o].address
  }
}
