/** The expenditure admission gate (routes/Expenditures/CreateExpenditure.ts): two
    locks are checked, the expenditure lock is taken, and the request is validated
    step by step; every failure after the lock was taken releases it, and only a
    created expenditure leaves it held. Also the classification of the uploaded
    zip's entries into one video and one receipt.

    The request, the signature check, the ETH price and the wei conversion, the
    zip reader, the S3 upload and the ledger write are inputs (`Request`). */
module ExpenditureAdmission {
  import opened Js
  import opened Records
  import opened Cache

  // ---------------------------------------------------------------------------
  // Zip entries

  datatype FileType = Video | Receipt

  /** A zip entry's name and the 32-bit hash of its contents (0 is falsy). */
  datatype ZipEntry = ZipEntry(entryName: string, hash: nat)

  datatype UnzippedFile = UnzippedFile(name: string, extension: string, fileType: FileType, hash: nat)

  datatype Unzip = UnzipError(message: string) | Unzipped(files: seq<UnzippedFile>)

  const VideoExtensions: seq<string> := [".mp4", ".mov", ".wmv", ".avi", ".flv"]
  const AcceptableExtensions: seq<string> := VideoExtensions + [".pdf"]

  const NoVideo := "Zip file does not include a video file of acceptable format. Acceptable formats are: .mp4, .mov, .wmv, .avi, .flv"
  const NoReceipt := "Zip file does not include a receipt file in PDF format"
  const TwoVideos := "Only one video file may be included in the zip file"
  const TwoReceipts := "Only one receipt file may be included in the zip file"
  const NoHash := "Could get get the hash of one or more files from the zip file"
  const Unreadable := "File included in request could not be unzipped. Be sure to include a zip file with two files included: a video file (in one of .mp4, .mov, .wmv, .avi, .flv format) and a receipt file (in PDF format)"

  /** The path with its trailing '/' removed. */
  function StripTrailingSlashes(s: string): (r: string)
    ensures |r| <= |s|
  {
    if s != [] && s[|s| - 1] == '/' then StripTrailingSlashes(s[..|s| - 1]) else s
  }

  /** The characters after the last '/'. */
  function LastSegment(s: string): (r: string)
    ensures '/' !in r
  {
    if s == [] || s[|s| - 1] == '/' then [] else LastSegment(s[..|s| - 1]) + [s[|s| - 1]]
  }

  /** `path.basename`. */
  function Basename(s: string): string
  {
    LastSegment(StripTrailingSlashes(s))
  }

  /** The position of the last '.' of `s`, if any. */
  function LastDot(s: string): (r: Option<nat>)
    ensures r.Some? ==> r.value < |s| && s[r.value] == '.'
    ensures r.None? ==> '.' !in s
  {
    if s == [] then None
    else if s[|s| - 1] == '.' then Some(|s| - 1)
    else LastDot(s[..|s| - 1])
  }

  /** `path.extname` for a name whose basename does not start with '.': from the
      basename's last '.' on, or empty when it has none. */
  function Extname(s: string): (r: string)
    ensures r == [] || r[0] == '.'
  {
    var b := Basename(s);
    match LastDot(b)
    case None => []
    case Some(i) => if i == 0 then [] else b[i..]
  }

  /** A prefix that ends a directory: empty, or ending in '/'. */
  predicate DirPrefix(p: string) { p == [] || p[|p| - 1] == '/' }

  lemma {:induction false} LastSegmentAfterDir(p: string, t: string)
    requires DirPrefix(p) && '/' !in t
    ensures LastSegment(p + t) == t
    decreases |t|
  {
    if t != [] {
      var u := t[..|t| - 1];
      assert (p + t)[..|p + t| - 1] == p + u;
      LastSegmentAfterDir(p, u);
      assert t == u + [t[|t| - 1]];
    } else {
      assert p + t == p;
    }
  }

  lemma {:induction false} LastDotSkips(a: string, t: string)
    requires '.' !in t
    ensures LastDot(a + t) == LastDot(a)
    decreases |t|
  {
    if t != [] {
      assert (a + t)[..|a + t| - 1] == a + t[..|t| - 1];
      LastDotSkips(a, t[..|t| - 1]);
    } else {
      assert a + t == a;
    }
  }

  /** The basename of a file in a directory (or at the top) is its name. */
  lemma BasenameOfName(dir: string, name: string)
    requires DirPrefix(dir) && name != [] && '/' !in name
    ensures Basename(dir + name) == name
  {
    assert (dir + name)[|dir + name| - 1] == name[|name| - 1];
    LastSegmentAfterDir(dir, name);
  }

  /** `path.extname` of a file in a directory (or at the top): '.' and the
      characters after the last '.' of its name. */
  lemma ExtnameOfName(dir: string, stem: string, ext: string)
    requires DirPrefix(dir) && stem != [] && '/' !in stem && '.' !in stem && '/' !in ext && '.' !in ext
    ensures Extname(dir + stem + "." + ext) == "." + ext
  {
    var name := stem + "." + ext;
    assert dir + stem + "." + ext == dir + name;
    assert '/' !in name;
    BasenameOfName(dir, name);
    LastDotSkips(stem + ".", ext);
    assert LastDot(stem + ".") == Some(|stem|);
    assert name[|stem|..] == "." + ext;
  }

  /** A name without '.' has no extension. */
  lemma ExtnameWithoutDot(dir: string, stem: string)
    requires DirPrefix(dir) && stem != [] && '/' !in stem && '.' !in stem
    ensures Extname(dir + stem) == []
  {
    BasenameOfName(dir, stem);
    LastDotSkips([], stem);
    assert [] + stem == stem;
  }

  /** A video in any letter case is kept and classified as the video, with its
      extension as written. */
  lemma KeptVideo(dir: string, stem: string, ext: string, hash: nat)
    requires DirPrefix(dir) && stem != [] && '/' !in stem && '.' !in stem && '/' !in ext && '.' !in ext
    requires Lower("." + ext) in VideoExtensions
    ensures Kept(ZipEntry(dir + stem + "." + ext, hash))
    ensures FileOf(ZipEntry(dir + stem + "." + ext, hash)) == UnzippedFile(dir + stem + "." + ext, "." + ext, Video, hash)
  {
    ExtnameOfName(dir, stem, ext);
    var name := stem + "." + ext;
    assert dir + stem + "." + ext == dir + name;
    assert '/' !in name;
    BasenameOfName(dir, name);
    assert name[0] == stem[0] != '.';
    assert Lower("." + ext) in AcceptableExtensions;
  }

  /** "clips/Clip.MP4" is kept as the video, with extension ".MP4". */
  lemma UpperCaseVideoKept(hash: nat)
    ensures Kept(ZipEntry("clips/Clip.MP4", hash))
    ensures FileOf(ZipEntry("clips/Clip.MP4", hash)).fileType == Video
    ensures FileOf(ZipEntry("clips/Clip.MP4", hash)).extension == ".MP4"
  {
    assert "clips/Clip.MP4" == "clips/" + "Clip" + "." + "MP4";
    assert "." + "MP4" == ".MP4";
    var lower := Lower(".MP4");
    assert lower[0] == '.' && lower[1] == 'm' && lower[2] == 'p' && lower[3] == '4';
    assert lower == ".mp4";
    KeptVideo("clips/", "Clip", "MP4", hash);
  }

  /** An entry `unzipFile` keeps: not hidden, with an accepted extension in any case. */
  predicate Kept(e: ZipEntry)
  {
    var b := Basename(e.entryName);
    !(b != [] && b[0] == '.') && Lower(Extname(e.entryName)) in AcceptableExtensions
  }

  function FileOf(e: ZipEntry): UnzippedFile
  {
    var ext := Extname(e.entryName);
    UnzippedFile(e.entryName, ext, if Lower(ext) in VideoExtensions then Video else Receipt, e.hash)
  }

  /** The kept entries, classified, in entry order. */
  function Classify(entries: seq<ZipEntry>): (r: seq<UnzippedFile>)
    ensures |r| <= |entries|
  {
    if entries == [] then []
    else (if Kept(entries[0]) then [FileOf(entries[0])] else []) + Classify(entries[1..])
  }

  predicate IsVideo(f: UnzippedFile) { f.fileType == Video }
  predicate IsReceipt(f: UnzippedFile) { f.fileType == Receipt }
  predicate HashMissing(f: UnzippedFile) { f.hash == 0 }

  /** `unzipFile`; `None` is a zip that could not be read. */
  function UnzipFile(entries: Option<seq<ZipEntry>>): Unzip
  {
    if entries.None? then UnzipError(Unreadable)
    else
      var files := Classify(entries.value);
      if |Filter(files, IsVideo)| == 0 then UnzipError(NoVideo)
      else if |Filter(files, IsReceipt)| == 0 then UnzipError(NoReceipt)
      else if |Filter(files, IsVideo)| > 1 then UnzipError(TwoVideos)
      else if |Filter(files, IsReceipt)| > 1 then UnzipError(TwoReceipts)
      else if |Filter(files, HashMissing)| > 0 then UnzipError(NoHash)
      else Unzipped(files)
  }

  /** A file is classified from an entry exactly when that entry is kept. */
  lemma {:induction false} ClassifyMembers(entries: seq<ZipEntry>, f: UnzippedFile)
    ensures f in Classify(entries) <==> exists e :: e in entries && Kept(e) && f == FileOf(e)
  {
    if entries != [] {
      ClassifyMembers(entries[1..], f);
      var e0 := entries[0];
      assert forall e :: e in entries <==> e == e0 || e in entries[1..] by {
        assert entries == [e0] + entries[1..];
      }
      if Kept(e0) && f == FileOf(e0) {
        assert e0 in entries;
      }
    }
  }

  lemma {:induction false} FilterNoneLength<T>(s: seq<T>, p: T -> bool)
    ensures |Filter(s, p)| == 0 <==> forall i :: 0 <= i < |s| ==> !p(s[i])
  {
    if s != [] {
      FilterNoneLength(s[1..], p);
      assert forall i :: 1 <= i < |s| ==> s[1..][i - 1] == s[i];
    }
  }

  /** The zip is accepted exactly when its kept entries hold one video and one
      receipt and every hash is nonzero; the accepted files are those entries. */
  lemma UnzipFileAccepts(entries: seq<ZipEntry>)
    ensures UnzipFile(Some(entries)).Unzipped? <==> ZipAccepted(entries)
    ensures UnzipFile(Some(entries)).Unzipped? ==>
      && UnzipFile(Some(entries)).files == Classify(entries)
      && FindType(Classify(entries), Video).Some?
      && FindType(Classify(entries), Receipt).Some?
  {
    var files := Classify(entries);
    FilterNoneLength(files, HashMissing);
    if |Filter(files, IsVideo)| == 1 && |Filter(files, IsReceipt)| == 1 {
      FilterOneFound(files, IsVideo, Video);
      FilterOneFound(files, IsReceipt, Receipt);
    }
  }

  /** The zip's kept entries hold one video, one receipt, and no missing hash. */
  predicate ZipAccepted(entries: seq<ZipEntry>)
  {
    && |Filter(Classify(entries), IsVideo)| == 1
    && |Filter(Classify(entries), IsReceipt)| == 1
    && forall i :: 0 <= i < |Classify(entries)| ==> Classify(entries)[i].hash != 0
  }

  /** A zip without a kept video is refused for that reason first, whatever else
      is wrong with it. */
  lemma NoVideoComesFirst(entries: seq<ZipEntry>)
    requires forall i :: 0 <= i < |entries| ==> !Kept(entries[i]) || Lower(Extname(entries[i].entryName)) == ".pdf"
    ensures UnzipFile(Some(entries)) == UnzipError(NoVideo)
  {
    NoVideoWhenOnlyPdf(entries);
    FilterNoneLength(Classify(entries), IsVideo);
  }

  lemma {:induction false} NoVideoWhenOnlyPdf(entries: seq<ZipEntry>)
    requires forall i :: 0 <= i < |entries| ==> !Kept(entries[i]) || Lower(Extname(entries[i].entryName)) == ".pdf"
    ensures forall i :: 0 <= i < |Classify(entries)| ==> !IsVideo(Classify(entries)[i])
  {
    if entries != [] {
      NoVideoWhenOnlyPdf(entries[1..]);
      var head := if Kept(entries[0]) then [FileOf(entries[0])] else [];
      assert Classify(entries) == head + Classify(entries[1..]);
      assert ".pdf" !in VideoExtensions;
    }
  }

  /** `find(files, type)`: the first file of that type. */
  function FindType(files: seq<UnzippedFile>, t: FileType): (r: Option<UnzippedFile>)
    ensures r.Some? ==> r.value in files && r.value.fileType == t
    ensures r.None? ==> forall f :: f in files ==> f.fileType != t
  {
    if files == [] then None
    else if files[0].fileType == t then Some(files[0])
    else FindType(files[1..], t)
  }

  // ---------------------------------------------------------------------------
  // The request

  /** A JSON value in the signed message, as far as the checks look at it. */
  datatype JsonValue = JMissing | JBool(b: bool) | JNumber(n: int) | JString(s: string)

  /** `!v || isNaN(Number(v))` rejects the value: absent, falsy or not a number.
      A number must be nonzero; a string only nonempty, so "0" passes as 0. */
  function NumberIfValid(v: JsonValue): (r: Option<int>)
    ensures v.JNumber? ==> (r.Some? <==> v.n != 0) && (r.Some? ==> r.value == v.n)
    ensures v.JString? ==> (r.Some? <==> v.s != [] && AllDigits(v.s))
    ensures v.JString? && r.Some? ==> AllDigits(v.s) && r.value == DecimalValue(v.s)
    ensures v.JBool? ==> (r.Some? <==> v.b) && (r.Some? ==> r.value == 1)
    ensures v.JMissing? ==> r.None?
  {
    match v
    case JMissing => None
    case JBool(b) => if b then Some(1) else None
    case JNumber(n) => if n == 0 then None else Some(n)
    case JString(s) =>
      if s == [] then None
      else match ToNumber(s)
        case NaN => None
        case Finite(n) => Some(n)
  }

  /** The string "0" is truthy and numeric, so it is accepted as zero. */
  lemma ZeroStringAccepted()
    ensures NumberIfValid(JString("0")) == Some(0)
  {
    assert AllDigits("0");
    assert DecimalValue("0") == 10 * DecimalValue([]) + DigitValue('0');
  }

  /** An amount the client printed in decimal, or sent as a nonzero number, is
      read back as itself. */
  lemma NumberIfValidRoundTrip(k: nat)
    ensures NumberIfValid(JString(NatToString(k))) == Some(k)
    ensures k != 0 ==> NumberIfValid(JNumber(k)) == Some(k)
  {
    ToNumberOfNatToString(k);
    NatToStringHasNoDash(k);
  }

  datatype Message = Message(platesDeployed: JsonValue, usd: JsonValue)

  /** What the route sees of one request. `message` and `signature` are the query
      parameters ("" when absent); `parsed` is None when the message is not JSON or
      parses to a falsy value; `wei` is the float conversion of the USD amount at
      the ETH price, None when it throws. */
  datatype Request = Request(
    hasFiles: bool,
    message: string,
    signature: string,
    walletConfigured: bool,
    signatureVerified: bool,
    parsed: Option<Message>,
    hasZip: bool,
    ethPriceKnown: bool,
    wei: Option<nat>,
    zip: Option<seq<ZipEntry>>,
    receiptUploaded: bool,
    expenditureCreated: bool)

  const Busy := "The system is processing a previous expenditure. Please try again in a few minutes."
  const Refunding := "The system is processing refunds. Please try again in a few minutes."
  const NoFiles := "No files were included with the request"
  const NoMessage := "Param message was not included in request"
  const NoSignature := "Param signature was not included in request"
  const NoWallet := "There was a server error while creating expenditure: could not get ETH wallet"
  const NotVerified := "The message and signature provided could not be verified. Only the address of the contract owner can be used to sign the message."
  const NotParsed := "The message provided in the request could not be parsed"
  const BadPlates := "The platesDeployed value in the message was not provided or was invalid"
  const BadUsd := "The usd in the message was not provided or was invalid"
  const NoZip := "A zipped file named videoAndReceipt that contains a video file and receipt PDF must be included in the request"
  const NoPrice := "A server error occured while creating the expenditure. Could not get the ETH price."
  const NotUploaded := "The receipt could not be uploaded to S3"
  const Overdraft := "You may not expend more than the balance of the contract"
  const NotCreated := "The expenditure could not be created via Infura"
  const Failed := "There expenditure could not be created"

  /** Where validation of a request ends: the reply, and the values stored in the
      instance fields on the way (None: never reached). */
  datatype Verdict = Verdict(reply: Reply<bool>, plates: Option<int>, usd: Option<int>, wei: Option<nat>)

  function Refuse(status: nat, message: string, plates: Option<int>, usd: Option<int>, wei: Option<nat>): Verdict
  {
    Verdict(Failure(status, message), plates, usd, wei)
  }

  /** The checks `init` makes after taking the lock, in order, against the cached
      contract balance. `Validate`, `ValidateAmounts` and `Admit` are the
      specification; the methods `Check`, `ReadAmounts` and `Submit` of the class
      below are the implementation proved to follow them. */
  function Validate(req: Request, balance: nat): (v: Verdict)
    ensures v.reply.ok ==> v.reply.status == 200
    ensures !v.reply.ok ==> v.reply.status in {400, 500} && v.reply.error.Some?
  {
    if !req.hasFiles then Refuse(400, NoFiles, None, None, None)
    else if req.message == [] then Refuse(400, NoMessage, None, None, None)
    else if req.signature == [] then Refuse(400, NoSignature, None, None, None)
    else if !req.walletConfigured then Refuse(500, NoWallet, None, None, None)
    else if !req.signatureVerified then Refuse(400, NotVerified, None, None, None)
    else if req.parsed.None? then Refuse(400, NotParsed, None, None, None)
    else ValidateAmounts(req, balance)
  }

  /** The checks once the message is parsed: the amounts, the zip's presence, the
      ETH price and the wei conversion. */
  function ValidateAmounts(req: Request, balance: nat): (v: Verdict)
    requires req.parsed.Some?
    ensures v.reply.ok ==> v.reply.status == 200
    ensures !v.reply.ok ==> v.reply.status in {400, 500} && v.reply.error.Some?
  {
    var plates := NumberIfValid(req.parsed.value.platesDeployed);
    if plates.None? then Refuse(400, BadPlates, None, None, None)
    else
      var usd := NumberIfValid(req.parsed.value.usd);
      if usd.None? then Refuse(400, BadUsd, plates, None, None)
      else if !req.hasZip then Refuse(400, NoZip, plates, usd, None)
      else if !req.ethPriceKnown then Refuse(500, NoPrice, plates, usd, None)
      else if req.wei.None? then Refuse(500, Failed, plates, usd, None)
      else Admit(req, balance, plates.value, usd.value)
  }

  /** The checks once the amounts are known: the zip, the upload, the balance and
      the ledger write. */
  function Admit(req: Request, balance: nat, plates: int, usd: int): (v: Verdict)
    requires req.wei.Some?
    ensures v.plates == Some(plates) && v.usd == Some(usd) && v.wei == req.wei
    ensures v.reply.ok ==> v.reply.status == 200
    ensures !v.reply.ok ==> v.reply.status in {400, 500} && v.reply.error.Some?
  {
    match UnzipFile(req.zip)
    case UnzipError(m) => Refuse(400, m, Some(plates), Some(usd), req.wei)
    case Unzipped(files) =>
      if FindType(files, Video).None? then Refuse(500, "The video file could not be parsed", Some(plates), Some(usd), req.wei)
      else if FindType(files, Receipt).None? then Refuse(500, "The receipt file could not be parsed", Some(plates), Some(usd), req.wei)
      else if !req.receiptUploaded then Refuse(400, NotUploaded, Some(plates), Some(usd), req.wei)
      else if balance - req.wei.value < 0 then Refuse(400, Overdraft, Some(plates), Some(usd), req.wei)
      else if !req.expenditureCreated then Refuse(400, NotCreated, Some(plates), Some(usd), req.wei)
      else Verdict(Reply(true, 200, None, None), Some(plates), Some(usd), req.wei)
  }

  /** A request is accepted exactly when it is signed and verified, names plates
      and USD that pass `NumberIfValid` (a nonzero JSON number, `true`, or a
      nonempty digit string, "0" included), carries a zip of one video and one
      receipt with nonzero hashes, does not expend more than the contract holds,
      and the ledger takes the expenditure. */
  lemma ValidateAccepts(req: Request, balance: nat)
    ensures Validate(req, balance).reply.ok <==>
      && req.hasFiles && req.message != [] && req.signature != []
      && req.walletConfigured && req.signatureVerified && req.parsed.Some?
      && NumberIfValid(req.parsed.value.platesDeployed).Some?
      && NumberIfValid(req.parsed.value.usd).Some?
      && req.hasZip && req.ethPriceKnown && req.wei.Some? && req.zip.Some?
      && ZipAccepted(req.zip.value)
      && req.receiptUploaded && req.wei.value <= balance && req.expenditureCreated
  {
    if req.zip.Some? && req.wei.Some? {
      UnzipFileAccepts(req.zip.value);
    }
  }

  lemma {:induction false} FilterOneFound(files: seq<UnzippedFile>, p: UnzippedFile -> bool, t: FileType)
    requires forall f :: p(f) <==> f.fileType == t
    requires |Filter(files, p)| == 1
    ensures FindType(files, t).Some?
  {
    if files != [] && files[0].fileType != t {
      FilterOneFound(files[1..], p, t);
    }
  }

  /** Expending more than the cached contract balance is refused with 400, once
      every earlier check has passed: the same request against a balance `b`
      below its wei. */
  lemma OverdraftRefused(req: Request, balance: nat, b: nat)
    requires Validate(req, balance).reply.ok && b < req.wei.value
    ensures Validate(req, b) == Refuse(400, Overdraft, Validate(req, balance).plates, Validate(req, balance).usd, req.wei)
  {
    var plates := NumberIfValid(req.parsed.value.platesDeployed).value;
    var usd := NumberIfValid(req.parsed.value.usd).value;
    assert Validate(req, balance) == ValidateAmounts(req, balance) == Admit(req, balance, plates, usd);
    assert Validate(req, b) == ValidateAmounts(req, b) == Admit(req, b, plates, usd);
    AdmitOverdraft(req, balance, b, plates, usd);
  }

  /** Until the ledger's balance has been cached, every request that would
      otherwise be admitted and spends any wei is refused as an overdraft: the
      route compares against `getStandardCharityContractBalance`, which reads an
      absent balance as 0. */
  lemma UncachedBalanceRefusesSpending(store: Store, req: Request, balance: nat)
    requires store.standardCharityContractBalance.None?
    requires Validate(req, balance).reply.ok && req.wei.value > 0
    ensures Validate(req, store.ContractBalance())
      == Refuse(400, Overdraft, Validate(req, balance).plates, Validate(req, balance).usd, req.wei)
  {
    OverdraftRefused(req, balance, store.ContractBalance());
  }

  lemma AdmitOverdraft(req: Request, balance: nat, b: nat, plates: int, usd: int)
    requires req.wei.Some? && Admit(req, balance, plates, usd).reply.ok && b < req.wei.value
    ensures Admit(req, b, plates, usd) == Refuse(400, Overdraft, Some(plates), Some(usd), req.wei)
  {
    var files := UnzipFile(req.zip).files;
    assert UnzipFile(req.zip).Unzipped? && FindType(files, Video).Some? && FindType(files, Receipt).Some?
      && req.receiptUploaded;
  }

  // ---------------------------------------------------------------------------
  // The route

  class CreateExpenditure {
    const store: Store
    var expenditureWei: Option<nat>
    var expenditureUsd: Option<int>
    var expenditurePlatesDeployed: Option<int>

    constructor (store: Store)
      ensures this.store == store
      ensures expenditureWei == None && expenditureUsd == None && expenditurePlatesDeployed == None
    {
      this.store := store;
      expenditureWei := None;
      expenditureUsd := None;
      expenditurePlatesDeployed := None;
    }

    /** `sendExpenditureError`: releases the expenditure lock and replies. */
    method SendExpenditureError(status: nat, message: string) returns (reply: Reply<bool>)
      modifies store
      ensures reply == Failure(status, message)
      ensures store.Snapshot() == old(store.Snapshot()).(isCreatingExpenditure := false)
      ensures store.writes == old(store.writes) + [IsCreatingExpenditureKey]
    {
      store.SetIsCreatingExpenditure(false);
      reply := Failure(status, message);
    }

    /** `init`. A held lock of either kind refuses the request without touching
        the cache. Otherwise the expenditure lock is taken first, the request is
        validated, and the lock is released on every refusal and kept on success. */
    method Init(req: Request) returns (reply: Reply<bool>)
      modifies this, store
      ensures old(store.isCreatingExpenditure) ==>
        reply == Failure(400, Busy) && unchanged(store) && unchanged(this)
      ensures !old(store.isCreatingExpenditure) && old(store.isCreatingRefunds) ==>
        reply == Failure(400, Refunding) && unchanged(store) && unchanged(this)
      ensures !old(store.isCreatingExpenditure) && !old(store.isCreatingRefunds) ==>
        var v := Validate(req, old(store.ContractBalance()));
        && reply == v.reply
        && store.Snapshot() == old(store.Snapshot()).(isCreatingExpenditure := v.reply.ok)
        && store.writes == old(store.writes) + [IsCreatingExpenditureKey]
             + (if v.reply.ok then [] else [IsCreatingExpenditureKey])
        && (v.plates.Some? ==> expenditurePlatesDeployed == v.plates)
        && (v.usd.Some? ==> expenditureUsd == v.usd)
        && (v.wei.Some? ==> expenditureWei == v.wei)
    {
      if store.isCreatingExpenditure {
        return Failure(400, Busy);
      }
      if store.isCreatingRefunds {
        return Failure(400, Refunding);
      }
      store.SetIsCreatingExpenditure(true);
      reply := Check(req);
    }

    /** The checks of `init` once the expenditure lock is held, releasing it on a
        refusal and storing the amounts as they are read; implements `Validate`. */
    method Check(req: Request) returns (reply: Reply<bool>)
      modifies this, store
      ensures var v := Validate(req, old(store.ContractBalance()));
        && reply == v.reply
        && store.Snapshot() == old(store.Snapshot()).(isCreatingExpenditure := if v.reply.ok then old(store.isCreatingExpenditure) else false)
        && store.writes == old(store.writes) + (if v.reply.ok then [] else [IsCreatingExpenditureKey])
        && (v.plates.Some? ==> expenditurePlatesDeployed == v.plates)
        && (v.usd.Some? ==> expenditureUsd == v.usd)
        && (v.wei.Some? ==> expenditureWei == v.wei)
    {
      if !req.hasFiles {
        reply := SendExpenditureError(400, NoFiles);
        return;
      }
      if req.message == [] {
        reply := SendExpenditureError(400, NoMessage);
        return;
      }
      if req.signature == [] {
        reply := SendExpenditureError(400, NoSignature);
        return;
      }
      if !req.walletConfigured {
        reply := SendExpenditureError(500, NoWallet);
        return;
      }
      if !req.signatureVerified {
        reply := SendExpenditureError(400, NotVerified);
        return;
      }
      if req.parsed.None? {
        reply := SendExpenditureError(400, NotParsed);
        return;
      }
      reply := ReadAmounts(req);
    }

    /** The part of `init` that reads and stores the amounts, then submits;
        implements `ValidateAmounts`. */
    method ReadAmounts(req: Request) returns (reply: Reply<bool>)
      requires req.parsed.Some?
      modifies this, store
      ensures var v := ValidateAmounts(req, old(store.ContractBalance()));
        && reply == v.reply
        && store.Snapshot() == old(store.Snapshot()).(isCreatingExpenditure := if v.reply.ok then old(store.isCreatingExpenditure) else false)
        && store.writes == old(store.writes) + (if v.reply.ok then [] else [IsCreatingExpenditureKey])
        && (v.plates.Some? ==> expenditurePlatesDeployed == v.plates)
        && (v.usd.Some? ==> expenditureUsd == v.usd)
        && (v.wei.Some? ==> expenditureWei == v.wei)
    {
      var plates := NumberIfValid(req.parsed.value.platesDeployed);
      if plates.None? {
        reply := SendExpenditureError(400, BadPlates);
        return;
      }
      expenditurePlatesDeployed := plates;
      var usd := NumberIfValid(req.parsed.value.usd);
      if usd.None? {
        reply := SendExpenditureError(400, BadUsd);
        return;
      }
      expenditureUsd := usd;
      if !req.hasZip {
        reply := SendExpenditureError(400, NoZip);
        return;
      }
      if !req.ethPriceKnown {
        reply := SendExpenditureError(500, NoPrice);
        return;
      }
      if req.wei.None? {
        // the conversion threw: the outer handler replies
        reply := SendExpenditureError(500, Failed);
        return;
      }
      expenditureWei := req.wei;
      reply := Submit(req, plates.value, usd.value);
    }

    /** The part of `init` after the amounts are stored: unzip, upload, check the
        balance and write to the ledger, releasing the lock on a refusal;
        implements `Admit`. */
    method Submit(req: Request, plates: int, usd: int) returns (reply: Reply<bool>)
      requires req.wei.Some?
      modifies store
      ensures var v := Admit(req, old(store.ContractBalance()), plates, usd);
        && reply == v.reply
        && store.Snapshot() == old(store.Snapshot()).(isCreatingExpenditure := if v.reply.ok then old(store.isCreatingExpenditure) else false)
        && store.writes == old(store.writes) + (if v.reply.ok then [] else [IsCreatingExpenditureKey])
    {
      var unzipped := UnzipFile(req.zip);
      if unzipped.UnzipError? {
        reply := SendExpenditureError(400, unzipped.message);
        return;
      }
      var video := FindType(unzipped.files, Video);
      if video.None? {
        reply := SendExpenditureError(500, "The video file could not be parsed");
        return;
      }
      var receipt := FindType(unzipped.files, Receipt);
      if receipt.None? {
        reply := SendExpenditureError(500, "The receipt file could not be parsed");
        return;
      }
      if !req.receiptUploaded {
        reply := SendExpenditureError(400, NotUploaded);
        return;
      }
      var balance := store.ContractBalance();
      if balance - req.wei.value < 0 {
        reply := SendExpenditureError(400, Overdraft);
        return;
      }
      if !req.expenditureCreated {
        reply := SendExpenditureError(400, NotCreated);
        return;
      }
      reply := Reply(true, 200, None, None);
    }
  }
}
