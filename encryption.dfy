/**
 * The encryption wrappers: each checks its arguments and then makes one call
 * on the shared channel to the computing iframe, whose command name is the
 * wrapper's own name.
 */
module Encryption {
  import opened Js
  import opened Rejections
  import opened Actions

  /**
   * The contract the three encrypting wrappers share: the tresor id must be
   * truthy (checked first), the payload merely not `null`/`undefined`, and a
   * valid call sends `[tresorId, payload]` under `cmd`.
   */
  predicate EncryptsWith(a: Action, cmd: string, tresorId: Value, payload: Value, payloadDescription: string)
  {
    && (!Truthy(tresorId) ==> RejectsBadInput(a, "tresorId cannot be empty"))
    && (Truthy(tresorId) && Nullish(payload) ==> RejectsBadInput(a, payloadDescription))
    && (a.Send? <==> Truthy(tresorId) && !Nullish(payload))
    && (a.Send? ==> a == Send(cmd, [tresorId, payload]))
  }

  /** The contract the three decrypting wrappers share: a falsy ciphertext is rejected, anything else sent alone. */
  predicate DecryptsWith(a: Action, cmd: string, cipher: Value, description: string)
  {
    && (a.Send? <==> Truthy(cipher))
    && (a.Send? ==> a == Send(cmd, [cipher]))
    && (!a.Send? ==> RejectsBadInput(a, description))
  }

  /** `encrypt(tresorId, plainText)` */
  function Encrypt(tresorId: Value, plainText: Value): (a: Action)
    ensures EncryptsWith(a, "encrypt", tresorId, plainText, "plainText cannot be null or undefined")
  {
    if !Truthy(tresorId) then Reject(BadInput("tresorId cannot be empty"))
    else if plainText == Null || plainText == Undefined then Reject(BadInput("plainText cannot be null or undefined"))
    else Send("encrypt", [tresorId, plainText])
  }

  /** `decrypt(cipherText)` */
  function Decrypt(cipherText: Value): (a: Action)
    ensures DecryptsWith(a, "decrypt", cipherText, "cipherText cannot be empty")
  {
    if !Truthy(cipherText) then Reject(BadInput("cipherText cannot be empty"))
    else Send("decrypt", [cipherText])
  }

  /** `encryptBytes(tresorId, plainBytes)`; its null check reuses the text wrapper's description. */
  function EncryptBytes(tresorId: Value, plainBytes: Value): (a: Action)
    ensures EncryptsWith(a, "encryptBytes", tresorId, plainBytes, "plainText cannot be null or undefined")
  {
    if !Truthy(tresorId) then Reject(BadInput("tresorId cannot be empty"))
    else if plainBytes == Null || plainBytes == Undefined then Reject(BadInput("plainText cannot be null or undefined"))
    else Send("encryptBytes", [tresorId, plainBytes])
  }

  /** `decryptBytes(cipherText)` */
  function DecryptBytes(cipherText: Value): (a: Action)
    ensures DecryptsWith(a, "decryptBytes", cipherText, "cipherText cannot be empty")
  {
    if !Truthy(cipherText) then Reject(BadInput("cipherText cannot be empty"))
    else Send("decryptBytes", [cipherText])
  }

  /** `encryptBlob(tresorId, plainBlobLike)` */
  function EncryptBlob(tresorId: Value, plainBlobLike: Value): (a: Action)
    ensures EncryptsWith(a, "encryptBlob", tresorId, plainBlobLike, "plainBlobLike cannot be null or undefined")
  {
    if !Truthy(tresorId) then Reject(BadInput("tresorId cannot be empty"))
    else if plainBlobLike == Null || plainBlobLike == Undefined then Reject(BadInput("plainBlobLike cannot be null or undefined"))
    else Send("encryptBlob", [tresorId, plainBlobLike])
  }

  /** `decryptBlob(encryptedBlobLike)` */
  function DecryptBlob(encryptedBlobLike: Value): (a: Action)
    ensures DecryptsWith(a, "decryptBlob", encryptedBlobLike, "encryptedBlobLike cannot be empty")
  {
    if !Truthy(encryptedBlobLike) then Reject(BadInput("encryptedBlobLike cannot be empty"))
    else Send("decryptBlob", [encryptedBlobLike])
  }

  /**
   * Each wrapper is an instance of the ordered check table: the same action
   * as running its checks in source order and then sending.
   */
  lemma WrappersAreGuarded(tresorId: Value, payload: Value, cipher: Value)
    ensures Encrypt(tresorId, payload) == Guarded(
      [Check(Truthy(tresorId), "tresorId cannot be empty"),
       Check(!Nullish(payload), "plainText cannot be null or undefined")], "encrypt", [tresorId, payload])
    ensures EncryptBytes(tresorId, payload) == Guarded(
      [Check(Truthy(tresorId), "tresorId cannot be empty"),
       Check(!Nullish(payload), "plainText cannot be null or undefined")], "encryptBytes", [tresorId, payload])
    ensures EncryptBlob(tresorId, payload) == Guarded(
      [Check(Truthy(tresorId), "tresorId cannot be empty"),
       Check(!Nullish(payload), "plainBlobLike cannot be null or undefined")], "encryptBlob", [tresorId, payload])
    ensures Decrypt(cipher) == Guarded([Check(Truthy(cipher), "cipherText cannot be empty")], "decrypt", [cipher])
    ensures DecryptBytes(cipher) == Guarded([Check(Truthy(cipher), "cipherText cannot be empty")], "decryptBytes", [cipher])
    ensures DecryptBlob(cipher) == Guarded([Check(Truthy(cipher), "encryptedBlobLike cannot be empty")], "decryptBlob", [cipher])
  {
    var first := Check(Truthy(tresorId), "tresorId cannot be empty");
    GuardedPair(first, Check(!Nullish(payload), "plainText cannot be null or undefined"), "encrypt", [tresorId, payload]);
    GuardedPair(first, Check(!Nullish(payload), "plainText cannot be null or undefined"), "encryptBytes", [tresorId, payload]);
    GuardedPair(first, Check(!Nullish(payload), "plainBlobLike cannot be null or undefined"), "encryptBlob", [tresorId, payload]);
  }

  /**
   * The payload checks are nullishness, not truthiness: an empty text is
   * encrypted, while an empty ciphertext is refused.
   */
  lemma EmptyTextIsEncryptedButNotDecrypted(tresorId: Value)
    requires Truthy(tresorId)
    ensures Encrypt(tresorId, Str("")) == Send("encrypt", [tresorId, Str("")])
    ensures Decrypt(Str("")) == Reject(BadInput("cipherText cannot be empty"))
  {
  }

  /** With both arguments missing, the tresor id is the one reported. */
  lemma TresorIdCheckedFirst(payload: Value)
    ensures Encrypt(Undefined, payload) == Reject(BadInput("tresorId cannot be empty"))
    ensures EncryptBytes(Str(""), payload) == Reject(BadInput("tresorId cannot be empty"))
    ensures EncryptBlob(Null, payload) == Reject(BadInput("tresorId cannot be empty"))
  {
  }
}
