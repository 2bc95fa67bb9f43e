/** Records kept by the store: associations as python-openid hands them over,
    the documents of the associations collection, and the documents of the
    nonces collection. */
module Records {

  datatype Option<+T> = None | Some(value: T)

  /** The only error the store raises itself: a server URL without "://". */
  datatype Error = BadServerUrl(url: string)

  datatype Result<+T> = Ok(value: T) | Err(error: Error)

  /** A python-openid association. Its serialized form is treated as the
      value itself, so serialize/deserialize is the identity here. */
  datatype Association = Association(
    handle: string,
    secret: string,
    issued: int,
    lifetime: int,
    assocType: string)

  /** The identity of an association document: the pair that the source hashes
      into `_id`, kept literally. */
  datatype AssocKey = AssocKey(serverUrl: string, handle: string)

  /** A document of the associations collection. */
  datatype AssocDoc = AssocDoc(
    serverUrl: string,
    handle: string,
    association: Association,
    expires: int)

  /** A document of the nonces collection; the whole triple is its unique key. */
  datatype Nonce = Nonce(serverUrl: string, timestamp: int, salt: string)
}
