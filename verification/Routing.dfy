/** Queues, their names, and the headers exchange that routes every published request. */
module Routing {
  import opened Wrappers
  import Text

  datatype QType = Direct | Buffered

  datatype Flavour = High | Mid | Low

  /** One of the six queues the consumer declares. */
  datatype QueueId = QueueId(qType: QType, flavour: Flavour)

  function QTypeName(t: QType): string {
    match t
    case Direct => "direct"
    case Buffered => "queue"
  }

  function FlavourName(f: Flavour): string {
    match f
    case High => "high-power"
    case Mid => "mid-power"
    case Low => "low-power"
  }

  function ParseFlavour(name: string): (f: Option<Flavour>)
    ensures f.Some? <==> exists g :: FlavourName(g) == name
    ensures f.Some? ==> FlavourName(f.value) == name
  {
    if name == FlavourName(High) then Some(High)
    else if name == FlavourName(Mid) then Some(Mid)
    else if name == FlavourName(Low) then Some(Low)
    else None
  }

  lemma FlavourNameInjective(f: Flavour, g: Flavour)
    requires FlavourName(f) == FlavourName(g)
    ensures f == g
  {
    assert FlavourName(High)[0] == 'h' && FlavourName(Mid)[0] == 'm' && FlavourName(Low)[0] == 'l';
  }

  lemma QTypeNameInjective(s: QType, t: QType)
    requires QTypeName(s) == QTypeName(t)
    ensures s == t
  {
    assert QTypeName(Direct)[0] == 'd' && QTypeName(Buffered)[0] == 'q';
  }

  function AllQueues(): set<QueueId> {
    {QueueId(Direct, High), QueueId(Direct, Mid), QueueId(Direct, Low),
     QueueId(Buffered, High), QueueId(Buffered, Mid), QueueId(Buffered, Low)}
  }

  lemma AllQueuesIsAll(q: QueueId)
    ensures q in AllQueues()
  {
    match q
    case QueueId(Direct, f) => match f { case High => case Mid => case Low => }
    case QueueId(Buffered, f) => match f { case High => case Mid => case Low => }
  }

  // ---------------------------------------------------------------- names

  /** `namespace.service.type.flavour` */
  function DottedName(ns: string, svc: string, qType: string, flavour: string): string {
    ns + ['.'] + (svc + ['.'] + (qType + ['.'] + flavour))
  }

  /** The name the consumer declares; its environment variables are lower-cased first. */
  function DeclaredName(ns: string, svc: string, q: QueueId): string {
    DottedName(Text.Lower(ns), Text.Lower(svc), QTypeName(q.qType), FlavourName(q.flavour))
  }

  /** The name the operator writes into an autoscaling trigger. */
  function TriggerName(ns: string, svc: string, q: QueueId): string {
    DottedName(ns, svc, QTypeName(q.qType), FlavourName(q.flavour))
  }

  /** What the name of a queue has behind namespace and service. */
  function Suffix(q: QueueId): string {
    ['.'] + (QTypeName(q.qType) + ['.'] + FlavourName(q.flavour))
  }

  /** Read from the back, the suffixes tell the queues apart whatever stands before them. */
  lemma SuffixesDiffer(a: string, q: QueueId, b: string, r: QueueId)
    requires a + Suffix(q) == b + Suffix(r)
    ensures q == r && a == b
  {
    LastLetters(a, q);
    LastLetters(b, r);
    assert q.flavour == r.flavour && q.qType == r.qType;
    Text.CancelBack(a, b, Suffix(q));
  }

  /** The letters of a name that give away its flavour and, behind that, its type. */
  lemma LastLetters(a: string, q: QueueId)
    ensures var n, f := a + Suffix(q), |FlavourName(q.flavour)|;
      && |n| >= 15 && n[|n| - 9] == (match q.flavour case High => 'i' case Mid => 'm' case Low => 'l')
      && n[|n| - f - 2] == (if q.qType.Direct? then 't' else 'e')
  {
    var t, f := QTypeName(q.qType), FlavourName(q.flavour);
    assert a + Suffix(q) == (a + ['.']) + t + ['.'] + f;
    assert t[|t| - 1] == (if q.qType.Direct? then 't' else 'e');
  }

  lemma DeclaredNameParts(ns: string, svc: string, q: QueueId)
    ensures DeclaredName(ns, svc, q) == Text.Lower(ns) + ['.'] + Text.Lower(svc) + Suffix(q)
  {
  }

  /** Main result on names: two declared queues share a name exactly if they are of one type and flavour
      and the lower-cased `namespace.service` texts are the same. */
  lemma QueueNamesDiffer(ns: string, svc: string, q: QueueId, ns': string, svc': string, q': QueueId)
    ensures DeclaredName(ns, svc, q) == DeclaredName(ns', svc', q')
      <==> q == q' && Text.Lower(ns) + ['.'] + Text.Lower(svc) == Text.Lower(ns') + ['.'] + Text.Lower(svc')
  {
    DeclaredNameParts(ns, svc, q);
    DeclaredNameParts(ns', svc', q');
    hide DeclaredName;
    hide Suffix;
    if DeclaredName(ns, svc, q) == DeclaredName(ns', svc', q') {
      SuffixesDiffer(Text.Lower(ns) + ['.'] + Text.Lower(svc), q, Text.Lower(ns') + ['.'] + Text.Lower(svc'), q');
    }
  }

  /** The six names as they read. */
  lemma QueueNamesRead(ns: string, svc: string)
    ensures var front := Text.Lower(ns) + "." + Text.Lower(svc);
      && DeclaredName(ns, svc, QueueId(Direct, High)) == front + (".direct." + "high-power")
      && DeclaredName(ns, svc, QueueId(Direct, Mid)) == front + (".direct." + "mid-power")
      && DeclaredName(ns, svc, QueueId(Direct, Low)) == front + (".direct." + "low-power")
      && DeclaredName(ns, svc, QueueId(Buffered, High)) == front + (".queue." + "high-power")
      && DeclaredName(ns, svc, QueueId(Buffered, Mid)) == front + (".queue." + "mid-power")
      && DeclaredName(ns, svc, QueueId(Buffered, Low)) == front + (".queue." + "low-power")
  {
    assert ['.'] == ".";
    forall q ensures DeclaredName(ns, svc, q) == Text.Lower(ns) + "." + Text.Lower(svc) + Suffix(q) {
      DeclaredNameParts(ns, svc, q);
    }
    forall q ensures Suffix(q) == (if q.qType.Direct? then ".direct." else ".queue.") + FlavourName(q.flavour) {
      SuffixReads(q);
    }
    hide DeclaredName;
    hide Suffix;
  }

  lemma SuffixReads(q: QueueId)
    ensures Suffix(q) == (if q.qType.Direct? then ".direct." else ".queue.") + FlavourName(q.flavour)
  {
    hide FlavourName;
    assert ['.'] + QTypeName(Direct) + ['.'] == ".direct.";
    assert ['.'] + QTypeName(Buffered) + ['.'] == ".queue.";
    assert Suffix(q) == ['.'] + QTypeName(q.qType) + ['.'] + FlavourName(q.flavour);
  }

  lemma LowerKeepsDots(s: string)
    requires '.' !in s
    ensures '.' !in Text.Lower(s)
  {
    assert forall i :: 0 <= i < |s| ==> s[i] in s;
  }

  /** Without dots in the namespaces these texts are the same only for the same namespace and service. */
  lemma DotFreeNamesDiffer(ns: string, svc: string, q: QueueId, ns': string, svc': string, q': QueueId)
    requires '.' !in ns && '.' !in ns'
    ensures DeclaredName(ns, svc, q) == DeclaredName(ns', svc', q')
      <==> q == q' && Text.Lower(ns) == Text.Lower(ns') && Text.Lower(svc) == Text.Lower(svc')
  {
    QueueNamesDiffer(ns, svc, q, ns', svc', q');
    LowerKeepsDots(ns);
    LowerKeepsDots(ns');
    if Text.Lower(ns) + ['.'] + Text.Lower(svc) == Text.Lower(ns') + ['.'] + Text.Lower(svc') {
      Text.SplitAtSeparator(Text.Lower(ns), Text.Lower(ns'), Text.Lower(svc), Text.Lower(svc'), '.');
    }
  }

  lemma DotsAssociate(x: string, y: string, z: string)
    ensures (x + ['.'] + y) + ['.'] + z == x + ['.'] + (y + ['.'] + z)
  {
  }

  /** With a dot they can be the same for others: moving the dot shifts a part from one to the other. */
  lemma DotsCanCollide(a: string, b: string, c: string, q: QueueId)
    ensures DeclaredName(a + ['.'] + b, c, q) == DeclaredName(a, b + ['.'] + c, q)
  {
    LowerJoins(a, b);
    LowerJoins(b, c);
    QueueNamesDiffer(a + ['.'] + b, c, q, a, b + ['.'] + c, q);
    DotsAssociate(Text.Lower(a), Text.Lower(b), Text.Lower(c));
    hide Text.Lower;
    hide DeclaredName;
  }

  lemma LowerJoins(a: string, b: string)
    ensures Text.Lower(a + ['.'] + b) == Text.Lower(a) + ['.'] + Text.Lower(b)
  {
    assert Text.LowerChar('.') == '.';
  }

  /** Two texts joined by a dot are known from the join when their lengths are. */
  lemma SameLengthParts(a: string, b: string, a': string, b': string)
    requires |a| == |a'| && a + ['.'] + b == a' + ['.'] + b'
    ensures a == a' && b == b'
  {
    assert a == (a + ['.'] + b)[..|a|] && b == (a + ['.'] + b)[|a| + 1..];
    assert a' == (a' + ['.'] + b')[..|a|] && b' == (a' + ['.'] + b')[|a| + 1..];
  }

  lemma TriggerNameParts(ns: string, svc: string, q: QueueId)
    ensures TriggerName(ns, svc, q) == ns + ['.'] + svc + Suffix(q)
  {
  }

  /** The operator's triggers watch the declared queue exactly when the names are lower case. */
  lemma TriggersNameDeclaredQueues(ns: string, svc: string, q: QueueId)
    ensures TriggerName(ns, svc, q) == DeclaredName(ns, svc, q) <==> Text.IsLower(ns) && Text.IsLower(svc)
  {
    Text.LowerFixesLower(ns);
    Text.LowerFixesLower(svc);
    TriggerNameParts(ns, svc, q);
    DeclaredNameParts(ns, svc, q);
    hide TriggerName;
    hide DeclaredName;
    hide Suffix;
    hide Text.IsLower;
    if TriggerName(ns, svc, q) == DeclaredName(ns, svc, q) {
      Text.CancelBack(ns + ['.'] + svc, Text.Lower(ns) + ['.'] + Text.Lower(svc), Suffix(q));
      SameLengthParts(ns, svc, Text.Lower(ns), Text.Lower(svc));
    }
  }

  // ---------------------------------------------------------------- the headers exchange

  type Headers = map<string, string>

  function BindingArguments(q: QueueId): Headers {
    map["x-match" := "all", "q_type" := QTypeName(q.qType), "flavour" := FlavourName(q.flavour)]
  }

  function MessageHeaders(t: QType, flavour: string, ns: string, svc: string): Headers {
    map["q_type" := QTypeName(t), "flavour" := flavour, "namespace" := ns, "service" := svc]
  }

  /** `x-match: all`: every argument that does not start with `x-` must be present and equal. */
  predicate Matches(arguments: Headers, headers: Headers) {
    forall k :: k in arguments && !Text.StartsWith(k, "x-") ==> k in headers && headers[k] == arguments[k]
  }

  /** Where the exchange puts a message. */
  function Route(headers: Headers): set<QueueId> {
    set q | q in AllQueues() && Matches(BindingArguments(q), headers)
  }

  lemma MatchMeansSameTypeAndFlavour(q: QueueId, t: QType, flavour: string, ns: string, svc: string)
    ensures Matches(BindingArguments(q), MessageHeaders(t, flavour, ns, svc))
      <==> q.qType == t && FlavourName(q.flavour) == flavour
  {
    var arguments, headers := BindingArguments(q), MessageHeaders(t, flavour, ns, svc);
    assert "x-match"[0] == 'x' && "q_type"[0] == 'q' && "flavour"[0] == 'f';
    assert "service"[0] == 's' && "namespace"[0] == 'n';
    assert "x-"[0] == 'x';
    assert Text.StartsWith("x-match", "x-") by { assert "x-match"[..2] == "x-"; }
    assert !Text.StartsWith("q_type", "x-") && !Text.StartsWith("flavour", "x-");
    assert arguments["q_type"] == QTypeName(q.qType) && headers["q_type"] == QTypeName(t);
    assert arguments["flavour"] == FlavourName(q.flavour) && headers["flavour"] == flavour;
    if Matches(arguments, headers) {
      QTypeNameInjective(q.qType, t);
    }
  }

  /** Main result: a message with a known flavour reaches exactly one queue, any other reaches none. */
  lemma ExactRouting(t: QType, flavour: string, ns: string, svc: string)
    ensures Route(MessageHeaders(t, flavour, ns, svc)) ==
      match ParseFlavour(flavour)
      case Some(f) => {QueueId(t, f)}
      case None => {}
  {
    var headers := MessageHeaders(t, flavour, ns, svc);
    forall q: QueueId
      ensures q in Route(headers) <==> ParseFlavour(flavour) == Some(q.flavour) && q.qType == t
    {
      AllQueuesIsAll(q);
      MatchMeansSameTypeAndFlavour(q, t, flavour, ns, svc);
      if FlavourName(q.flavour) == flavour {
        FlavourNameInjective(q.flavour, ParseFlavour(flavour).value);
      }
    }
  }
}
