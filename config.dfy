/** The communication configuration of a client and its validation
    (p3270/p3270.py, class Config): the terminal model, the host port, the
    code page, the screens directory and the two yes/no switches, plus the
    character encoding derived from the code page. */
module Configuration {
  import opened Wrappers
  import opened Text

  /** The terminal models s3270 accepts. */
  const ValidModels: seq<string> :=
    ["3278-2", "3278-3", "3278-4", "3278-5", "3279-2", "3279-3", "3279-4", "3279-5"]

  /** The single-byte code pages (the keys of the table; its descriptions are
      never looked at). */
  const SbcsCodePages: set<string> :=
    {"cp037", "cp273", "cp275", "cp277", "cp278", "cp280", "cp284", "cp285", "cp297",
     "cp424", "cp500", "cp803", "cp870", "cp871", "cp875", "cp880", "cp930", "cp935",
     "cp937", "cp939", "cp1026", "cp1047", "cp1140", "cp1141", "cp1142", "cp1143",
     "cp1144", "cp1145", "cp1146", "cp1147", "cp1148", "cp1149", "cp1160", "cp1388",
     "apl", "bracket"}

  /** The double-byte code pages. */
  const DbcsCodePages: set<string> := {"cp930", "cp935", "cp937", "cp1388"}

  /** The encoding used for the bytes on the pipes, by code page. */
  const EncodingLookup: map<string, string> :=
    map["cp037" := "latin1", "cp273" := "latin1", "cp275" := "latin1", "cp277" := "latin1",
        "cp278" := "latin1", "cp280" := "latin1", "cp284" := "latin1", "cp285" := "latin1",
        "cp297" := "latin1", "cp424" := "latin8", "cp500" := "latin1", "cp870" := "latin2",
        "cp871" := "latin1", "cp875" := "latin7", "cp880" := "koi8-r", "cp1026" := "latin5",
        "cp1047" := "latin1", "cp1140" := "latin9", "cp1141" := "latin9", "cp1142" := "latin9",
        "cp1143" := "latin9", "cp1144" := "latin9", "cp1145" := "latin9", "cp1146" := "latin9",
        "cp1147" := "latin9", "cp1148" := "latin9"]

  /** The highest TCP port. */
  const MaxPort := 65535

  /** Python truthiness of a value that is None or a string. */
  predicate Truthy(o: Option<string>) {
    o.Some? && o.value != ""
  }

  /** The constructor's arguments. hostPort is the text int() is applied to. */
  datatype Attributes = Attributes(
    hostName: string,
    hostPort: string,
    modelName: string,
    traceFile: Option<string>,
    luName: Option<string>,
    codePage: Option<string>,
    screensDir: Option<string>,
    verifyCert: Option<string>,
    enableTLS: Option<string>)

  /** The defaults the constructor declares. */
  const DefaultAttributes := Attributes("localhost", "23", "3279-2", None, None, Some("cp037"),
                                        None, Some("yes"), Some("no"))

  /** A code page either table knows: in the DBCS table or in the SBCS table. */
  predicate KnownCodePage(cp: string) {
    cp in DbcsCodePages || cp in SbcsCodePages
  }

  /** _encodingLookup.get(cp, 'latin1'): the table's entry, latin1 where it
      has none. Every encoding it yields is one of the single-byte,
      ASCII-compatible codecs, and only single-byte pages get one other than
      latin1. */
  function EncodingFor(cp: string): (e: string)
    ensures e in {"latin1", "latin2", "latin5", "latin7", "latin8", "latin9", "koi8-r"}
    ensures e != "latin1" ==> cp in SbcsCodePages && cp !in DbcsCodePages
  {
    if cp in EncodingLookup then EncodingLookup[cp] else "latin1"
  }

  /** The attributes validation can report, with the name the report uses. */
  datatype Attr = ModelName | HostPort | CodePage | ScreensDir | VerifyCert | EnableTLS {
    function Name(): (n: string)
      ensures |n| > 0
    {
      match this
      case ModelName => "modelName"
      case HostPort => "hostPort"
      case CodePage => "codePage"
      case ScreensDir => "screensDir"
      case VerifyCert => "verifyCert"
      case EnableTLS => "enableTLS"
    }
  }

  /** Different attributes are reported under different names. */
  lemma NamesDistinct(x: Attr, y: Attr)
    requires x != y
    ensures x.Name() != y.Name()
  {
    assert x.Name()[|x.Name()| - 1] != y.Name()[|y.Name()| - 1] || x.Name()[0] != y.Name()[0]
        || |x.Name()| != |y.Name()|;
  }

  /** The attributes in the order validation checks them. */
  const CheckedAttributes: seq<Attr> := [ModelName, HostPort, CodePage, ScreensDir, VerifyCert, EnableTLS]

  /** A value of verifyCert or enableTLS: one of ["yes", "no"]. */
  predicate IsSwitch(v: string) {
    v == "yes" || v == "no"
  }

  /** Whether the check on attribute x rejects a, given the port int() made
      of hostPort and whether the screens directory exists. Attributes that
      are None or empty are not checked, except the model and the port. */
  predicate Rejects(a: Attributes, port: int, dirExists: bool, x: Attr) {
    match x
    case ModelName => a.modelName !in ValidModels
    case HostPort => port < 1 || port > MaxPort
    case CodePage => Truthy(a.codePage) && !KnownCodePage(a.codePage.value)
    case ScreensDir => Truthy(a.screensDir) && !dirExists
    case VerifyCert => Truthy(a.verifyCert) && !IsSwitch(a.verifyCert.value)
    case EnableTLS => Truthy(a.enableTLS) && !IsSwitch(a.enableTLS.value)
  }

  /** What the check on x adds to the report: its name when it fails. */
  function Report(a: Attributes, port: int, dirExists: bool, x: Attr): (r: seq<Attr>)
    ensures |r| <= 1
  {
    if Rejects(a, port, dirExists, x) then [x] else []
  }

  /** The attributes validation reports, in the order of the checks. */
  function Failures(a: Attributes, port: int, dirExists: bool): (fs: seq<Attr>)
    ensures |fs| <= |CheckedAttributes|
    ensures forall i :: 0 <= i < |fs| ==> Rejects(a, port, dirExists, fs[i])
  {
    Report(a, port, dirExists, ModelName) + Report(a, port, dirExists, HostPort)
    + Report(a, port, dirExists, CodePage) + Report(a, port, dirExists, ScreensDir)
    + Report(a, port, dirExists, VerifyCert) + Report(a, port, dirExists, EnableTLS)
  }

  /** The names of the attributes xs, in order. */
  function Names(xs: seq<Attr>): (ns: seq<string>)
    ensures |ns| == |xs| && forall i :: 0 <= i < |xs| ==> ns[i] == xs[i].Name()
  {
    seq(|xs|, i requires 0 <= i < |xs| => xs[i].Name())
  }

  /** The invalidAttributes list validation leaves: the reported names. */
  function FailureNames(a: Attributes, port: int, dirExists: bool): (ns: seq<string>)
    ensures |ns| == |Failures(a, port, dirExists)|
    ensures forall i :: 0 <= i < |ns| ==>
      ns[i] in ["modelName", "hostPort", "codePage", "screensDir", "verifyCert", "enableTLS"]
  {
    Names(Failures(a, port, dirExists))
  }

  /** Appending the report of check x appends its name when the check fails. */
  lemma NamesSnoc(pre: seq<string>, xs: seq<Attr>, a: Attributes, port: int, dirExists: bool, x: Attr)
    ensures pre + Names(xs + Report(a, port, dirExists, x))
      == pre + Names(xs) + if Rejects(a, port, dirExists, x) then [x.Name()] else []
  {
    var r := Report(a, port, dirExists, x);
    assert Names(xs + r) == Names(xs) + Names(r);
    assert pre + (Names(xs) + Names(r)) == pre + Names(xs) + Names(r);
  }

  /** No element occurs twice. */
  predicate Distinct<T(==)>(s: seq<T>) {
    forall i, j :: 0 <= i < j < |s| ==> s[i] != s[j]
  }

  lemma DistinctSnoc<T>(s: seq<T>, r: seq<T>)
    requires Distinct(s) && |r| <= 1
    requires forall y :: y in r ==> y !in s
    ensures Distinct(s + r)
  {
    if |r| == 1 {
      forall i, j | 0 <= i < j < |s + r| ensures (s + r)[i] != (s + r)[j] {
        if j == |s| {
          assert (s + r)[j] == r[0] && (s + r)[i] == s[i];
          assert r[0] in r && s[i] in s;
        } else {
          assert (s + r)[j] == s[j] && (s + r)[i] == s[i];
        }
      }
    } else {
      assert s + r == s;
    }
  }

  /** An attribute is reported exactly when its check fails. */
  lemma FailuresMembers(a: Attributes, port: int, dirExists: bool, x: Attr)
    ensures x in Failures(a, port, dirExists) <==> Rejects(a, port, dirExists, x)
  {
  }

  /** No attribute is reported twice. */
  lemma FailuresDistinct(a: Attributes, port: int, dirExists: bool)
    ensures Distinct(Failures(a, port, dirExists))
  {
    var f1 := Report(a, port, dirExists, ModelName);
    var f2 := f1 + Report(a, port, dirExists, HostPort);
    var f3 := f2 + Report(a, port, dirExists, CodePage);
    var f4 := f3 + Report(a, port, dirExists, ScreensDir);
    var f5 := f4 + Report(a, port, dirExists, VerifyCert);
    DistinctSnoc(f1, Report(a, port, dirExists, HostPort));
    DistinctSnoc(f2, Report(a, port, dirExists, CodePage));
    DistinctSnoc(f3, Report(a, port, dirExists, ScreensDir));
    DistinctSnoc(f4, Report(a, port, dirExists, VerifyCert));
    DistinctSnoc(f5, Report(a, port, dirExists, EnableTLS));
  }

  /** The configuration is valid exactly when every check passes. */
  lemma FailuresEmpty(a: Attributes, port: int, dirExists: bool)
    ensures |Failures(a, port, dirExists)| == 0 <==> forall x :: !Rejects(a, port, dirExists, x)
  {
    var f := Failures(a, port, dirExists);
    if |f| != 0 {
      FailuresMembers(a, port, dirExists, f[0]);
    }
  }

  /** A name is in invalidAttributes exactly when that attribute's check failed. */
  lemma FailureNamesReport(a: Attributes, port: int, dirExists: bool, x: Attr)
    ensures x.Name() in FailureNames(a, port, dirExists) <==> Rejects(a, port, dirExists, x)
  {
    FailuresMembers(a, port, dirExists, x);
    var f := Failures(a, port, dirExists);
    if x.Name() in FailureNames(a, port, dirExists) {
      var i :| 0 <= i < |f| && FailureNames(a, port, dirExists)[i] == x.Name();
      if f[i] != x {
        NamesDistinct(f[i], x);
      }
      assert f[i] in f;
    }
  }

  /** The port is reported exactly when it lies outside 1..65535. */
  lemma PortReported(a: Attributes, port: int, dirExists: bool)
    ensures "hostPort" in FailureNames(a, port, dirExists) <==> port < 1 || port > 65535
  {
    FailureNamesReport(a, port, dirExists, HostPort);
  }

  /** The model is reported exactly when it is not one of the eight valid ones. */
  lemma ModelReported(a: Attributes, port: int, dirExists: bool)
    ensures "modelName" in FailureNames(a, port, dirExists) <==> a.modelName !in ValidModels
  {
    FailureNamesReport(a, port, dirExists, ModelName);
  }

  /** A code page is reported exactly when it is set and in neither table. */
  lemma CodePageReported(a: Attributes, port: int, dirExists: bool)
    ensures "codePage" in FailureNames(a, port, dirExists)
      <==> a.codePage.Some? && a.codePage.value != ""
           && a.codePage.value !in DbcsCodePages && a.codePage.value !in SbcsCodePages
  {
    FailureNamesReport(a, port, dirExists, CodePage);
  }

  /** The screens directory is reported exactly when it is set and does not exist. */
  lemma ScreensDirReported(a: Attributes, port: int, dirExists: bool)
    ensures "screensDir" in FailureNames(a, port, dirExists)
      <==> a.screensDir.Some? && a.screensDir.value != "" && !dirExists
  {
    FailureNamesReport(a, port, dirExists, ScreensDir);
  }

  /** The two switches are reported exactly when set to something other than
      yes or no; None and the empty text are not checked. */
  lemma SwitchesReported(a: Attributes, port: int, dirExists: bool)
    ensures "verifyCert" in FailureNames(a, port, dirExists)
      <==> Truthy(a.verifyCert) && a.verifyCert.value != "yes" && a.verifyCert.value != "no"
    ensures "enableTLS" in FailureNames(a, port, dirExists)
      <==> Truthy(a.enableTLS) && a.enableTLS.value != "yes" && a.enableTLS.value != "no"
  {
    FailureNamesReport(a, port, dirExists, VerifyCert);
    FailureNamesReport(a, port, dirExists, EnableTLS);
  }

  /** The declared defaults pass every check, the port being 23. */
  lemma DefaultsPass(dirExists: bool)
    ensures ParseInt(DefaultAttributes.hostPort) == Some(23)
    ensures FailureNames(DefaultAttributes, 23, dirExists) == []
  {
    assert DefaultAttributes.hostPort == IntToString(23);
    ParseIntToString(23);
  }

  /** Every page the encoding table names is a single-byte page; the
      double-byte pages, and the single-byte pages it leaves out, use latin1. */
  lemma EncodingTable(cp: string)
    ensures EncodingLookup.Keys <= SbcsCodePages
    ensures cp in DbcsCodePages ==> EncodingFor(cp) == "latin1"
    ensures cp in {"cp803", "cp1149", "cp1160", "apl", "bracket"} ==> EncodingFor(cp) == "latin1"
  {
  }

  /** A configuration: the attributes it was built with, the list of those
      that failed validation, the encoding derived from the code page (None
      until validation sets it) and the validity flag. */
  class Config {
    const hostName: string
    const hostPort: string
    const modelName: string
    const traceFile: Option<string>
    const luName: Option<string>
    const codePage: Option<string>
    const screensDir: Option<string>
    const verifyCert: Option<string>
    const enableTLS: Option<string>
    var invalidAttributes: seq<string>
    var encoding: Option<string>
    var valid: bool

    /** The attributes as one value. */
    function Attrs(): (a: Attributes)
      ensures a.hostPort == hostPort && a.modelName == modelName && a.codePage == codePage
    {
      Attributes(hostName, hostPort, modelName, traceFile, luName, codePage, screensDir, verifyCert, enableTLS)
    }

    /** The assignments of __init__ before validation: the attributes kept,
        the list empty, no encoding yet. */
    constructor (a: Attributes)
      ensures Attrs() == a
      ensures invalidAttributes == [] && encoding == None && !valid
    {
      hostName := a.hostName;
      hostPort := a.hostPort;
      modelName := a.modelName;
      traceFile := a.traceFile;
      luName := a.luName;
      codePage := a.codePage;
      screensDir := a.screensDir;
      verifyCert := a.verifyCert;
      enableTLS := a.enableTLS;
      invalidAttributes := [];
      encoding := None;
      valid := false;
    }

    /** validateAttributes(): appends the name of each failed check, and sets
        the encoding when the code page is known. int() on a port that is not
        a decimal raises ValueError, after the model check only. dirExists is
        what os.path.isdir says of the screens directory. */
    method ValidateAttributes(dirExists: bool) returns (r: Result<()>)
      modifies this`invalidAttributes, this`encoding
      ensures r.Ok? <==> ParseInt(hostPort).Some?
      ensures r.Err? ==> r.error == "ValueError" && encoding == old(encoding)
      ensures r.Err? ==>
        invalidAttributes == old(invalidAttributes) + (if modelName !in ValidModels then ["modelName"] else [])
      ensures r.Ok? ==>
        invalidAttributes == old(invalidAttributes) + FailureNames(Attrs(), ParseInt(hostPort).value, dirExists)
      ensures r.Ok? ==>
        encoding == if Truthy(codePage) && KnownCodePage(codePage.value) then Some(EncodingFor(codePage.value))
                    else old(encoding)
    {
      ghost var a := Attrs();
      ghost var pre := invalidAttributes;
      CheckModel();
      var port := ParseInt(hostPort);
      if port.None? {
        return Err("ValueError");
      }
      ghost var p := port.value;
      ghost var f := Report(a, p, dirExists, ModelName);
      assert invalidAttributes == pre + Names(f);
      CheckPort(port.value);
      NamesSnoc(pre, f, a, p, dirExists, HostPort);
      f := f + Report(a, p, dirExists, HostPort);
      assert invalidAttributes == pre + Names(f);
      CheckCodePage(p, dirExists);
      NamesSnoc(pre, f, a, p, dirExists, CodePage);
      f := f + Report(a, p, dirExists, CodePage);
      assert invalidAttributes == pre + Names(f);
      CheckScreensDir(p, dirExists);
      NamesSnoc(pre, f, a, p, dirExists, ScreensDir);
      f := f + Report(a, p, dirExists, ScreensDir);
      assert invalidAttributes == pre + Names(f);
      CheckSwitches(p, dirExists);
      NamesSnoc(pre, f, a, p, dirExists, VerifyCert);
      f := f + Report(a, p, dirExists, VerifyCert);
      NamesSnoc(pre, f, a, p, dirExists, EnableTLS);
      f := f + Report(a, p, dirExists, EnableTLS);
      assert invalidAttributes == pre + Names(f);
      assert f == Failures(a, p, dirExists);
      assert FailureNames(Attrs(), ParseInt(hostPort).value, dirExists) == Names(f);
      r := Ok(());
    }

    /** The model must be one of the eight valid ones. */
    method CheckModel()
      modifies this`invalidAttributes
      ensures invalidAttributes == old(invalidAttributes)
        + (if modelName !in ValidModels then [ModelName.Name()] else [])
    {
      if modelName !in ValidModels {
        invalidAttributes := invalidAttributes + [ModelName.Name()];
      }
    }

    /** The port must lie in 1..65535. */
    method CheckPort(port: int)
      modifies this`invalidAttributes
      ensures invalidAttributes == old(invalidAttributes)
        + (if port < 1 || port > MaxPort then [HostPort.Name()] else [])
    {
      if port < 1 || port > MaxPort {
        invalidAttributes := invalidAttributes + [HostPort.Name()];
      }
    }

    /** A code page that is set must be in one of the tables; a known one
        fixes the encoding. */
    method CheckCodePage(ghost port: int, ghost dirExists: bool)
      modifies this`invalidAttributes, this`encoding
      ensures invalidAttributes == old(invalidAttributes)
        + (if Rejects(Attrs(), port, dirExists, CodePage) then [CodePage.Name()] else [])
      ensures encoding
        == if Truthy(codePage) && KnownCodePage(codePage.value) then Some(EncodingFor(codePage.value))
           else old(encoding)
    {
      if Truthy(codePage) {
        if !KnownCodePage(codePage.value) {
          invalidAttributes := invalidAttributes + [CodePage.Name()];
        } else {
          encoding := Some(EncodingFor(codePage.value));
        }
      }
    }

    /** A screens directory that is set must exist. */
    method CheckScreensDir(ghost port: int, dirExists: bool)
      modifies this`invalidAttributes
      ensures invalidAttributes == old(invalidAttributes)
        + (if Rejects(Attrs(), port, dirExists, ScreensDir) then [ScreensDir.Name()] else [])
    {
      if Truthy(screensDir) {
        if !dirExists {
          invalidAttributes := invalidAttributes + [ScreensDir.Name()];
        }
      }
    }

    /** verifyCert and enableTLS, when set, must be yes or no. */
    method CheckSwitches(ghost port: int, ghost dirExists: bool)
      modifies this`invalidAttributes
      ensures invalidAttributes == old(invalidAttributes)
        + (if Rejects(Attrs(), port, dirExists, VerifyCert) then [VerifyCert.Name()] else [])
        + (if Rejects(Attrs(), port, dirExists, EnableTLS) then [EnableTLS.Name()] else [])
    {
      if Truthy(verifyCert) {
        if !IsSwitch(verifyCert.value) {
          invalidAttributes := invalidAttributes + [VerifyCert.Name()];
        }
      }
      if Truthy(enableTLS) {
        if !IsSwitch(enableTLS.value) {
          invalidAttributes := invalidAttributes + [EnableTLS.Name()];
        }
      }
    }

    /** isValid() */
    predicate IsValid()
      reads this`valid
    {
      valid
    }
  }

  /** Config(...) with no configuration file: the attributes stored, then
      validated; the configuration is valid exactly when nothing was reported.
      The ValueError of a non-numeric port propagates out of the constructor. */
  method NewConfig(a: Attributes, dirExists: bool) returns (r: Result<Config>)
    ensures r.Err? <==> ParseInt(a.hostPort).None?
    ensures r.Err? ==> r.error == "ValueError"
    ensures r.Ok? ==> fresh(r.value) && r.value.Attrs() == a
    ensures r.Ok? ==>
      var port := ParseInt(a.hostPort).value;
      && r.value.invalidAttributes == FailureNames(a, port, dirExists)
      && (r.value.IsValid() <==> Failures(a, port, dirExists) == [])
      && r.value.encoding == if Truthy(a.codePage) && KnownCodePage(a.codePage.value)
                             then Some(EncodingFor(a.codePage.value)) else None
  {
    var c := new Config(a);
    var v := c.ValidateAttributes(dirExists);
    if v.Err? {
      return Err(v.error);
    }
    c.valid := |c.invalidAttributes| == 0;
    r := Ok(c);
  }
}
