/**
 * Discovery of the VAPID signing key in a PEM key file, and the options the
 * notifier derives from it. Decoding PEM text, parsing DER and encoding the key
 * halves as base64url are done by library code outside this model: a key file
 * is the sequence of blocks `pem.Decode` would yield in turn, and
 * `x509.ParseECPrivateKey` is a given function.
 */
module Vapid {
  import opened Wrappers

  /** `WebpushSubject`, the subscriber contact sent with every push. */
  const WebpushSubject: string := "xsuportal@example.com"

  /** An EC private key: the scalar `D` and the public point `(X, Y)`. */
  datatype EcKey = EcKey(d: nat, x: nat, y: nat)

  /** One PEM block: its type and its decoded bytes. */
  datatype PemBlock = PemBlock(blockType: string, bytes: seq<bv8>)

  /** The key file: unreadable, or the PEM blocks it holds in order. */
  datatype KeyFile = Unreadable | Readable(blocks: seq<PemBlock>)

  /** `x509.ParseECPrivateKey`: the key a block's bytes encode, if any. */
  type EcKeyParser = seq<bv8> -> Option<EcKey>

  /** `pem.Decode`: the next block, if there is one, and the data after it. */
  function PemDecode(data: seq<PemBlock>): (r: (Option<PemBlock>, seq<PemBlock>))
    ensures r.0.None? <==> data == []
    ensures r.0.Some? ==> data == [r.0.value] + r.1
    ensures |r.1| <= |data|
  {
    if data == [] then (None, data) else (Some(data[0]), data[1..])
  }

  /** The key of the first block that parses, scanning in file order. */
  function FirstEcKey(blocks: seq<PemBlock>, parse: EcKeyParser): (r: Option<EcKey>)
    ensures r.Some? ==> exists i :: 0 <= i < |blocks| && parse(blocks[i].bytes) == r
    decreases |blocks|
  {
    if blocks == [] then None
    else if parse(blocks[0].bytes).Some? then parse(blocks[0].bytes)
    else FirstEcKey(blocks[1..], parse)
  }

  /** The scan finds `k` exactly when `k` is what the first parsing block yields. */
  lemma {:induction false} FirstEcKeyIsFirst(blocks: seq<PemBlock>, parse: EcKeyParser, k: EcKey)
    ensures FirstEcKey(blocks, parse) == Some(k) <==>
      exists i :: 0 <= i < |blocks| && parse(blocks[i].bytes) == Some(k)
                  && forall j :: 0 <= j < i ==> parse(blocks[j].bytes).None?
    decreases |blocks|
  {
    if blocks != [] {
      FirstEcKeyIsFirst(blocks[1..], parse, k);
      if parse(blocks[0].bytes).None? {
        if FirstEcKey(blocks, parse) == Some(k) {
          var i :| 0 <= i < |blocks[1..]| && parse(blocks[1..][i].bytes) == Some(k)
                   && forall j :: 0 <= j < i ==> parse(blocks[1..][j].bytes).None?;
          assert forall j :: 0 <= j < i + 1 ==> parse(blocks[j].bytes).None? by {
            forall j | 0 <= j < i + 1 ensures parse(blocks[j].bytes).None? {
              if j > 0 { assert blocks[j] == blocks[1..][j - 1]; }
            }
          }
        } else {
          forall i | 0 <= i < |blocks| && parse(blocks[i].bytes) == Some(k)
            ensures exists j :: 0 <= j < i && parse(blocks[j].bytes).Some?
          {
            assert i > 0 && blocks[i] == blocks[1..][i - 1];
            var j :| 0 <= j < i - 1 && parse(blocks[1..][j].bytes).Some?;
            assert blocks[j + 1] == blocks[1..][j];
          }
        }
      }
    }
  }

  /** The scan finds nothing exactly when no block parses. */
  lemma {:induction false} FirstEcKeyNone(blocks: seq<PemBlock>, parse: EcKeyParser)
    ensures FirstEcKey(blocks, parse).None? <==> forall i :: 0 <= i < |blocks| ==> parse(blocks[i].bytes).None?
    decreases |blocks|
  {
    if blocks != [] {
      FirstEcKeyNone(blocks[1..], parse);
      assert forall i :: 1 <= i < |blocks| ==> blocks[i] == blocks[1..][i - 1];
    }
  }

  /** Why `GetVAPIDKey` fails. */
  datatype KeyError = ReadPemFailed | EcKeyNotFound

  /** What `GetVAPIDKey` returns for a key file. */
  function FindVapidKey(file: KeyFile, parse: EcKeyParser): (r: Result<EcKey, KeyError>)
    ensures r == Err(ReadPemFailed) <==> file.Unreadable?
    ensures r == Err(EcKeyNotFound) <==> file.Readable? && FirstEcKey(file.blocks, parse).None?
    ensures r.Ok? ==> r.value == FirstEcKey(file.blocks, parse).value
  {
    match file
    case Unreadable => Err(ReadPemFailed)
    case Readable(blocks) =>
      match FirstEcKey(blocks, parse)
      case Some(k) => Ok(k)
      case None => Err(EcKeyNotFound)
  }

  /**
   * Read the key file and return the key of the first PEM block that parses as
   * an EC private key, skipping blocks that do not.
   */
  method GetVAPIDKey(file: KeyFile, parse: EcKeyParser) returns (r: Result<EcKey, KeyError>)
    ensures r == FindVapidKey(file, parse)
    ensures r == Err(ReadPemFailed) <==> file.Unreadable?
    ensures r.Ok? ==> exists i :: 0 <= i < |file.blocks| && parse(file.blocks[i].bytes) == Some(r.value)
  {
    if file.Unreadable? {
      return Err(ReadPemFailed);
    }
    var pemBytes := file.blocks;
    while true
      invariant |pemBytes| <= |file.blocks|
      invariant pemBytes == file.blocks[|file.blocks| - |pemBytes|..]
      invariant FirstEcKey(pemBytes, parse) == FirstEcKey(file.blocks, parse)
      decreases |pemBytes|
    {
      var (block, rest) := PemDecode(pemBytes);
      pemBytes := rest;
      if block.None? {
        break;
      }
      var ecPrivateKey := parse(block.value.bytes);
      if ecPrivateKey.None? {
        continue;
      }
      FirstEcKeyIsFirst(file.blocks, parse, ecPrivateKey.value);
      assert file.blocks[|file.blocks| - |pemBytes| - 1] == block.value;
      return Ok(ecPrivateKey.value);
    }
    return Err(EcKeyNotFound);
  }

  /** The push options derived from a key; the base64url encodings of its halves are left to the library. */
  datatype VapidOptions = VapidOptions(subscriber: string, key: EcKey)

  /**
   * What `VAPIDKey` derives when nothing is memoised: it reads the file and
   * decodes only its FIRST block, which must parse as an EC private key.
   */
  function LoadOptions(file: KeyFile, parse: EcKeyParser): (r: Option<VapidOptions>)
    ensures r.Some? <==> file.Readable? && file.blocks != [] && parse(file.blocks[0].bytes).Some?
    ensures r.Some? ==> r.value == VapidOptions(WebpushSubject, parse(file.blocks[0].bytes).value)
  {
    match file
    case Unreadable => None
    case Readable(blocks) =>
      if blocks == [] then None
      else match parse(blocks[0].bytes)
        case None => None
        case Some(k) => Some(VapidOptions(WebpushSubject, k))
  }

  /** The options after one `VAPIDKey` call: kept when set, loaded otherwise. */
  function MemoisedOptions(current: Option<VapidOptions>, file: KeyFile, parse: EcKeyParser): (r: Option<VapidOptions>)
    ensures current.Some? ==> r == current
    ensures current.None? ==> r == LoadOptions(file, parse)
  {
    if current.Some? then current else LoadOptions(file, parse)
  }

  /** A second call changes nothing: set options stay, and a failed load fails again on the same file. */
  lemma MemoisedOptionsIdempotent(current: Option<VapidOptions>, file: KeyFile, parse: EcKeyParser)
    ensures MemoisedOptions(MemoisedOptions(current, file, parse), file, parse) == MemoisedOptions(current, file, parse)
  {
  }

  /** Once set, the options no longer depend on the key file at all. */
  lemma MemoisedIgnoresFile(current: Option<VapidOptions>, file: KeyFile, later: KeyFile, parse: EcKeyParser)
    requires MemoisedOptions(current, file, parse).Some?
    ensures MemoisedOptions(MemoisedOptions(current, file, parse), later, parse) == MemoisedOptions(current, file, parse)
  {
  }

  /** When `VAPIDKey` loads a key, `GetVAPIDKey` finds the same key in the same file. */
  lemma LoadAgreesWithScan(file: KeyFile, parse: EcKeyParser)
    requires LoadOptions(file, parse).Some?
    ensures FindVapidKey(file, parse) == Ok(LoadOptions(file, parse).value.key)
  {
  }

  /**
   * The converse fails: a file whose first block is not an EC private key
   * (an `EC PARAMETERS` block ahead of the key, say) passes `GetVAPIDKey` but
   * leaves `VAPIDKey` unavailable.
   */
  lemma {:induction false} ScanFindsKeysLoadMisses(first: PemBlock, second: PemBlock, parse: EcKeyParser)
    requires parse(first.bytes).None? && parse(second.bytes).Some?
    ensures LoadOptions(Readable([first, second]), parse).None?
    ensures FindVapidKey(Readable([first, second]), parse) == Ok(parse(second.bytes).value)
  {
    assert [first, second][1..] == [second];
    assert FirstEcKey([first, second], parse) == FirstEcKey([second], parse);
  }
}
