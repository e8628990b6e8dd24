/** The metric line parser of the Kepler scraper: an unescaped subset of the Prometheus text format. */
module Labels {
  import opened Options

  // Strings.

  /** The position of the first occurrence of c. */
  function Find(s: string, c: char): (r: Option<nat>)
    ensures r.Some? ==> r.value < |s| && s[r.value] == c && c !in s[..r.value]
    ensures r.None? ==> c !in s
  {
    if s == [] then None
    else if s[0] == c then Some(0)
    else
      var rest := Find(s[1..], c);
      assert s == [s[0]] + s[1..];
      if rest.None? then None else
      assert s[..rest.value + 1] == [s[0]] + s[1..][..rest.value];
      Some(rest.value + 1)
  }

  /** Unicode white space. */
  predicate IsSpace(c: char)
  {
    || '\U{0009}' <= c <= '\U{000D}' || c == ' ' || c == '\U{0085}' || c == '\U{00A0}' || c == '\U{1680}'
    || '\U{2000}' <= c <= '\U{200A}' || c == '\U{2028}' || c == '\U{2029}' || c == '\U{202F}' || c == '\U{205F}' ||
      c == '\U{3000}'
  }

  /** The white space of Unicode, by code point. */
  lemma SpacesAre(c: char)
    ensures IsSpace(c) <==>
      || 0x9 <= c as int <= 0xD || 0x2000 <= c as int <= 0x200A
      || c as int in {0x20, 0x85, 0xA0, 0x1680, 0x2028, 0x2029, 0x202F, 0x205F, 0x3000}
  {
  }

  function TrimStart(s: string): string
  {
    if s != [] && IsSpace(s[0]) then TrimStart(s[1..]) else s
  }

  function TrimEnd(s: string): string
  {
    if s != [] && IsSpace(s[|s| - 1]) then TrimEnd(s[..|s| - 1]) else s
  }

  function Trim(s: string): string
  {
    TrimEnd(TrimStart(s))
  }

  function StripCommas(s: string): string
  {
    if s != [] && s[0] == ',' then StripCommas(s[1..]) else s
  }

  /** `trim().trim_start_matches(',').trim()`. */
  function Clean(s: string): string
  {
    Trim(StripCommas(Trim(s)))
  }

  /** t is s with some characters taken off its ends. */
  ghost predicate IsPart(t: string, s: string)
  {
    |t| <= |s| && (|t| == |s| ==> t == s) && forall c :: c in t ==> c in s
  }

  lemma {:induction false} TrimTakesPart(s: string)
    ensures IsPart(TrimStart(s), s) && IsPart(TrimEnd(s), s) && IsPart(StripCommas(s), s)
  {
    if s != [] {
      TrimTakesPart(s[1..]);
      TrimTakesPart(s[..|s| - 1]);
    }
  }

  lemma CleanTakesPart(s: string)
    ensures IsPart(Clean(s), s)
  {
    TrimTakesPart(s);
    TrimTakesPart(TrimStart(s));
    TrimTakesPart(Trim(s));
    TrimTakesPart(StripCommas(Trim(s)));
    TrimTakesPart(TrimStart(StripCommas(Trim(s))));
  }

  /** Keys without commas and white space are left alone. */
  lemma CleanKeeps(s: string)
    requires ',' !in s && forall c :: c in s ==> !IsSpace(c)
    ensures Clean(s) == s
  {
  }

  /** Exactly the keys that do not begin with white space or a comma and do not end with white space. */
  lemma CleanKeepsIff(s: string)
    ensures Clean(s) == s <==> s == [] || (!IsSpace(s[0]) && s[0] != ',' && !IsSpace(s[|s| - 1]))
  {
    TrimTakesPart(s);
    TrimTakesPart(TrimStart(s));
    TrimTakesPart(Trim(s));
    TrimTakesPart(StripCommas(Trim(s)));
    TrimTakesPart(TrimStart(StripCommas(Trim(s))));
    if s != [] {
      TrimTakesPart(s[1..]);
      TrimTakesPart(s[..|s| - 1]);
    }
  }

  // Labels.

  datatype Label = Label(key: string, value: string)

  function Pair(l: Label): string
  {
    l.key + "=\"" + l.value + "\""
  }

  /** key="value" pairs, separated by commas. */
  function Print(labels: seq<Label>): string
  {
    if labels == [] then ""
    else if |labels| == 1 then Pair(labels[0])
    else Pair(labels[0]) + "," + Print(labels[1..])
  }

  /** The labels as a map; the last duplicate wins. */
  function MapOf(labels: seq<Label>): map<string, string>
  {
    if labels == [] then map[] else map[labels[0].key := labels[0].value] + MapOf(labels[1..])
  }

  function SkipComma(s: string): string
  {
    if s != [] && s[0] == ',' then s[1..] else s
  }

  /** A quoted value, and what follows it after an optional comma. */
  datatype Quoted = Quoted(value: string, rest: string)

  function Unquote(s: string): (r: Option<Quoted>)
    ensures r.Some? ==> |r.value.value| + |r.value.rest| + 2 <= |s|
  {
    if s == [] || s[0] != '\"' then None
    else
      var quote := Find(s[1..], '\"');
      if quote.None? then None else Some(Quoted(s[1..][..quote.value], SkipComma(s[1..][quote.value + 1..])))
  }

  /** What one turn of the loop does: a label and the rest, or the end. */
  datatype Turn = Stop | More(found: Label, rest: string)

  function ParseOne(s: string): (t: Turn)
    ensures t.More? ==> |t.rest| + |t.found.value| + 3 <= |s|
  {
    var eq := Find(s, '=');
    if eq.None? then Stop
    else
      var quoted := Unquote(s[eq.value + 1..]);
      if quoted.None? then Stop else More(Label(Clean(s[..eq.value]), quoted.value.value), quoted.value.rest)
  }

  function Parse(s: string): map<string, string>
    decreases |s|
  {
    var t := ParseOne(s);
    if t.Stop? then map[] else map[t.found.key := t.found.value] + Parse(t.rest)
  }

  lemma InsertFirst<K, V>(m: map<K, V>, k: K, v: V, rest: map<K, V>)
    ensures m + (map[k := v] + rest) == m[k := v] + rest
  {
  }

  /** The labels found so far and those still to come. */
  ghost predicate Progress(result: map<string, string>, remaining: string, s: string)
  {
    result + Parse(remaining) == Parse(s)
  }

  lemma Finished(result: map<string, string>, remaining: string, s: string)
    requires Progress(result, remaining, s) && ParseOne(remaining).Stop?
    ensures result == Parse(s)
  {
    assert result + map[] == result;
  }

  lemma Continues(result: map<string, string>, remaining: string, s: string)
    requires Progress(result, remaining, s) && ParseOne(remaining).More?
    ensures var t := ParseOne(remaining); Progress(result[t.found.key := t.found.value], t.rest, s)
  {
    var t := ParseOne(remaining);
    InsertFirst(result, t.found.key, t.found.value, Parse(t.rest));
  }

  /** `parse_labels`, which ends on every string. */
  method ParseLabels(s: string) returns (result: map<string, string>)
    ensures result == Parse(s)
  {
    result := map[];
    var remaining := s;
    assert map[] + Parse(s) == Parse(s);
    while remaining != []
      invariant Progress(result, remaining, s)
      decreases |remaining|
    {
      var eq := Find(remaining, '=');
      if eq.None? {
        break;
      }
      var key := Clean(remaining[..eq.value]);
      var quoted := Unquote(remaining[eq.value + 1..]);
      if quoted.None? {
        break;
      }
      Continues(result, remaining, s);
      result := result[key := quoted.value.value];
      remaining := quoted.value.rest;
    }
    Finished(result, remaining, s);
  }

  // The round trip.

  /** The printed text of the label can be cut up again. */
  predicate Separable(l: Label)
  {
    '=' !in l.key && '\"' !in l.value
  }

  predicate IsClean(l: Label)
  {
    Clean(l.key) == l.key
  }

  predicate Plain(l: Label)
  {
    Separable(l) && IsClean(l)
  }

  lemma {:induction false} FindSkips(a: string, c: char, b: string)
    requires c !in a
    ensures Find(a + [c] + b, c) == Some(|a|)
  {
    var s := a + [c] + b;
    if a != [] {
      assert s[1..] == a[1..] + [c] + b;
      FindSkips(a[1..], c, b);
    }
  }

  lemma UnquotePrinted(value: string, more: string)
    requires '\"' !in value
    ensures Unquote("\"" + value + "\"" + more) == Some(Quoted(value, SkipComma(more)))
  {
    var s := "\"" + value + "\"" + more;
    assert s[1..] == value + ['\"'] + more;
    FindSkips(value, '\"', more);
    assert s[1..][..|value|] == value && s[1..][|value| + 1..] == more;
  }

  /** One printed label is parsed back with its key cleaned, whatever follows. */
  lemma ParsePrinted(l: Label, more: string)
    requires Separable(l)
    ensures ParseOne(Pair(l) + more) == More(Cleaned(l), SkipComma(more))
  {
    var s, tail := Pair(l) + more, "\"" + l.value + "\"" + more;
    assert s == l.key + ['='] + tail;
    FindSkips(l.key, '=', tail);
    assert s[..|l.key|] == l.key && s[|l.key| + 1..] == tail;
    UnquotePrinted(l.value, more);
  }

  function Cleaned(l: Label): Label
  {
    Label(Clean(l.key), l.value)
  }

  function AllCleaned(labels: seq<Label>): (r: seq<Label>)
    ensures |r| == |labels| && forall i :: 0 <= i < |r| ==> r[i] == Cleaned(labels[i])
  {
    seq(|labels|, i requires 0 <= i < |labels| => Cleaned(labels[i]))
  }

  lemma ParseCons(l: Label, rest: string)
    requires Separable(l)
    ensures Parse(Pair(l)) == map[Clean(l.key) := l.value]
    ensures Parse(Pair(l) + ("," + rest)) == map[Clean(l.key) := l.value] + Parse(rest)
  {
    ParsePrinted(l, "");
    assert Pair(l) + "" == Pair(l);
    ParsePrinted(l, "," + rest);
    assert SkipComma("," + rest) == rest;
  }

  lemma PrintCons(labels: seq<Label>)
    requires |labels| > 1
    ensures Print(labels) == Pair(labels[0]) + ("," + Print(labels[1..]))
  {
  }

  lemma {:induction false} ParseSeparable(labels: seq<Label>)
    requires forall i :: 0 <= i < |labels| ==> Separable(labels[i])
    ensures Parse(Print(labels)) == MapOf(AllCleaned(labels))
  {
    if |labels| == 1 {
      ParseCons(labels[0], "");
      assert AllCleaned(labels)[1..] == [];
    } else if labels != [] {
      ParseSeparable(labels[1..]);
      ParseCons(labels[0], Print(labels[1..]));
      PrintCons(labels);
      assert AllCleaned(labels)[1..] == AllCleaned(labels[1..]);
    }
  }

  /** Printing any list of plain labels and parsing gives the labels back, the last duplicate winning. */
  lemma RoundTrip(labels: seq<Label>)
    requires forall i :: 0 <= i < |labels| ==> Plain(labels[i])
    ensures Parse(Print(labels)) == MapOf(labels)
  {
    ParseSeparable(labels);
    assert AllCleaned(labels) == labels;
  }

  // Exactly when a list survives.

  ghost predicate HasKey(labels: seq<Label>, key: string)
  {
    exists i :: 0 <= i < |labels| && labels[i].key == key
  }

  lemma {:induction false} KeysOf(labels: seq<Label>, key: string)
    ensures key in MapOf(labels) <==> HasKey(labels, key)
  {
    if labels != [] {
      var rest := labels[1..];
      KeysOf(rest, key);
      if i :| 0 <= i < |rest| && rest[i].key == key { assert labels[i + 1].key == key; }
      if i :| 0 <= i < |labels| && labels[i].key == key { assert i == 0 || rest[i - 1].key == key; }
    }
  }

  /** What is parsed never has '=' in a key or a quote in a value. */
  lemma {:induction false} ParsedIsSeparable(s: string, key: string)
    requires key in Parse(s)
    ensures '=' !in key && '\"' !in Parse(s)[key]
    decreases |s|
  {
    var t := ParseOne(s);
    if key in Parse(t.rest) {
      ParsedIsSeparable(t.rest, key);
    } else {
      CleanTakesPart(s[..Find(s, '=').value]);
    }
  }

  /** If cleaning maps the keys onto themselves, every key is clean: a longest unclean one would have to
      come from a longer one. */
  lemma {:induction false} OntoMeansClean(labels: seq<Label>, i: nat, longest: nat)
    requires i < |labels| && forall j :: 0 <= j < |labels| ==> |labels[j].key| <= longest
    requires forall j :: 0 <= j < |labels| ==> HasKey(AllCleaned(labels), labels[j].key)
    ensures IsClean(labels[i])
    decreases longest - |labels[i].key|
  {
    var j :| 0 <= j < |labels| && AllCleaned(labels)[j].key == labels[i].key;
    CleanTakesPart(labels[j].key);
    if Clean(labels[j].key) != labels[j].key {
      OntoMeansClean(labels, j, longest);
    }
  }

  lemma {:induction false} LongestKey(labels: seq<Label>) returns (n: nat)
    ensures forall j :: 0 <= j < |labels| ==> |labels[j].key| <= n
  {
    n := 0;
    if labels != [] {
      var m := LongestKey(labels[1..]);
      n := if m < |labels[0].key| then |labels[0].key| else m;
      forall j | 0 <= j < |labels| ensures |labels[j].key| <= n {
        if j > 0 { assert labels[j] == labels[1..][j - 1]; }
      }
    }
  }

  /** A list of separable labels survives exactly if every key is clean, duplicates or not. */
  lemma SeparableSurvivesIff(labels: seq<Label>)
    requires forall i :: 0 <= i < |labels| ==> Separable(labels[i])
    ensures Parse(Print(labels)) == MapOf(labels) <==> forall i :: 0 <= i < |labels| ==> IsClean(labels[i])
  {
    ParseSeparable(labels);
    if MapOf(AllCleaned(labels)) == MapOf(labels) {
      var longest := LongestKey(labels);
      forall j | 0 <= j < |labels| ensures HasKey(AllCleaned(labels), labels[j].key) {
        KeysOf(labels, labels[j].key);
        KeysOf(AllCleaned(labels), labels[j].key);
      }
      forall i | 0 <= i < |labels| ensures IsClean(labels[i]) { OntoMeansClean(labels, i, longest); }
    }
    if forall i :: 0 <= i < |labels| ==> IsClean(labels[i]) { assert AllCleaned(labels) == labels; }
  }

  predicate DistinctKeys(labels: seq<Label>)
  {
    forall i, j :: 0 <= i < j < |labels| ==> labels[i].key != labels[j].key
  }

  lemma {:induction false} DistinctValue(labels: seq<Label>, i: nat)
    requires DistinctKeys(labels) && i < |labels|
    ensures labels[i].key in MapOf(labels) && MapOf(labels)[labels[i].key] == labels[i].value
  {
    var rest := labels[1..];
    if i > 0 {
      assert rest[i - 1] == labels[i];
      DistinctValue(rest, i - 1);
    } else {
      KeysOf(rest, labels[0].key);
    }
  }

  /** A list of labels with distinct keys survives printing and parsing exactly if no key has '=' or
      something to trim and no value has a quote. */
  lemma SurvivesIff(labels: seq<Label>)
    requires DistinctKeys(labels)
    ensures Parse(Print(labels)) == MapOf(labels) <==> forall i :: 0 <= i < |labels| ==> Plain(labels[i])
  {
    if Parse(Print(labels)) == MapOf(labels) {
      forall i | 0 <= i < |labels| ensures Separable(labels[i]) {
        DistinctValue(labels, i);
        ParsedIsSeparable(Print(labels), labels[i].key);
      }
      SeparableSurvivesIff(labels);
    } else if forall i :: 0 <= i < |labels| ==> Plain(labels[i]) {
      RoundTrip(labels);
    }
  }

  /** With duplicates the condition is not needed: here the quote in the first label ends its value early,
      and later labels make up for it. */
  lemma DuplicatesCanHideAQuote(x: Label, y: Label)
    requires Plain(x) && Plain(y)
    ensures var bad := Label(x.key, x.value + "\"," + Pair(y)[..|Pair(y)| - 1]);
      !Plain(bad) && Parse(Print([bad, y, x])) == MapOf([bad, y, x])
  {
    var bad := Label(x.key, x.value + "\"," + Pair(y)[..|Pair(y)| - 1]);
    assert bad.value[|x.value|] == '\"';
    assert Pair(bad) == Pair(x) + ("," + Pair(y));
    Prints([bad, y, x], [x, y, y, x]);
    RoundTrip([x, y, y, x]);
    SameMap(bad, x, y);
  }

  lemma Prints(a: seq<Label>, b: seq<Label>)
    requires |a| == 3 && |b| == 4 && a[1..] == b[2..] && Pair(a[0]) == Pair(b[0]) + ("," + Pair(b[1]))
    ensures Print(a) == Print(b)
  {
    PrintCons(a);
    PrintCons(b);
    PrintCons(b[1..]);
    assert b[1..][1..] == b[2..] && b[1..][0] == b[1];
    Regroup(Pair(b[0]), Pair(b[1]), "," + Print(b[2..]));
  }

  lemma Regroup(p: string, q: string, r: string)
    ensures p + ("," + q) + r == p + ("," + (q + r))
  {
  }

  lemma SameMap(bad: Label, x: Label, y: Label)
    requires bad.key == x.key
    ensures MapOf([bad, y, x]) == MapOf([x, y, y, x])
  {
    var a, b := [bad, y, x], [x, y, y, x];
    assert a[1..] == [y, x] && b[1..] == [y, y, x] && b[1..][1..] == [y, x] && [y, x][1..] == [x] && [x][1..] == [];
    assert MapOf([x]) == map[x.key := x.value];
    assert MapOf([y, x]) == map[y.key := y.value] + MapOf([x]);
    assert MapOf([y, y, x]) == map[y.key := y.value] + MapOf([y, x]);
  }

  // Metric lines. Reading a number is a parameter.

  datatype PodKey = PodKey(podId: string, podName: string, podNamespace: string, nodeName: string, state: string)

  /** Slicing a line whose braces are in the wrong order would panic. */
  datatype Outcome<T> = Panics | NoMetric | Metric(value: T, watts: real)

  /** The two parts of a line: the labels between the first braces, and the value after them. */
  datatype Line = Unbraced | Reversed | Braced(inside: string, after: string)

  function SplitLine(line: string): Line
  {
    var start, end := Find(line, '{'), Find(line, '}');
    if start.None? || end.None? then Unbraced
    else if end.value < start.value + 1 then Reversed
    else Braced(line[start.value + 1..end.value], Trim(line[end.value + 1..]))
  }

  function PodKeyOf(m: map<string, string>): Option<PodKey>
  {
    if "pod_id" in m && "pod_name" in m && "pod_namespace" in m && "node_name" in m && "state" in m
    then Some(PodKey(m["pod_id"], m["pod_name"], m["pod_namespace"], m["node_name"], m["state"]))
    else None
  }

  /** A pod is recognised exactly if all five labels are there. */
  lemma PodKeyIff(m: map<string, string>)
    ensures PodKeyOf(m).Some? <==> {"pod_id", "pod_name", "pod_namespace", "node_name", "state"} <= m.Keys
  {
  }

  function NodeNameOf(m: map<string, string>): Option<string>
  {
    if "node_name" in m then Some(m["node_name"]) else None
  }

  /** The value first, then the labels the caller needs. */
  function ParseMetric<T>(line: string, number: string -> Option<real>,
                          pick: map<string, string> -> Option<T>): Outcome<T>
  {
    match SplitLine(line)
    case Unbraced => NoMetric
    case Reversed => Panics
    case Braced(inside, after) =>
      var watts := number(after);
      var value := pick(Parse(inside));
      if watts.None? || value.None? then NoMetric else Metric(value.value, watts.value)
  }

  /** `parse_pod_metric`. */
  function ParsePodMetric(line: string, number: string -> Option<real>): Outcome<PodKey>
  {
    ParseMetric(line, number, PodKeyOf)
  }

  /** `parse_node_metric`. */
  function ParseNodeMetric(line: string, number: string -> Option<real>): Outcome<string>
  {
    ParseMetric(line, number, NodeNameOf)
  }

  predicate Braceless(s: string)
  {
    '{' !in s && '}' !in s
  }

  function PrintLine(name: string, labels: seq<Label>, value: string): string
  {
    name + "{" + Print(labels) + "} " + value
  }

  lemma {:induction false} PrintAvoids(labels: seq<Label>, c: char)
    requires c != '=' && c != ',' && c != '\"' && forall i :: 0 <= i < |labels| ==>
      c !in labels[i].key && c !in labels[i].value
    ensures c !in Print(labels)
  {
    if |labels| > 1 { PrintAvoids(labels[1..], c); }
  }

  lemma SplitPrinted(name: string, inside: string, value: string)
    requires Braceless(name) && '}' !in inside
    ensures SplitLine(name + "{" + inside + "} " + value) == Braced(inside, Trim(" " + value))
  {
    var line := name + "{" + inside + "} " + value;
    var head := name + "{" + inside;
    assert line == name + ['{'] + (inside + "} " + value);
    FindSkips(name, '{', inside + "} " + value);
    assert line == head + ['}'] + (" " + value);
    FindSkips(head, '}', " " + value);
    assert line[|name| + 1..|head|] == inside;
    assert line[|head| + 1..] == " " + value;
  }

  function Recovered<T>(watts: Option<real>, value: Option<T>): Outcome<T>
  {
    if watts.Some? && value.Some? then Metric(value.value, watts.value) else NoMetric
  }

  /** Labels that survive inside braces. */
  predicate PlainInBraces(labels: seq<Label>)
  {
    forall i :: 0 <= i < |labels| ==> Plain(labels[i]) && '}' !in labels[i].key && '}' !in labels[i].value
  }

  lemma MetricRoundTrip<T>(name: string, labels: seq<Label>, value: string, number: string -> Option<real>,
                           pick: map<string, string> -> Option<T>)
    requires Braceless(name) && PlainInBraces(labels)
    ensures ParseMetric(PrintLine(name, labels, value), number, pick) ==
      Recovered(number(Trim(" " + value)), pick(MapOf(labels)))
  {
    PrintAvoids(labels, '}');
    SplitPrinted(name, Print(labels), value);
    RoundTrip(labels);
  }

  /** Printing a metric line and parsing it recovers the labels and the value: the pod parser finds its
      five labels and the node parser its one, exactly if they are there and the value is a number. */
  lemma PodAndNodeRoundTrip(name: string, labels: seq<Label>, value: string, number: string -> Option<real>)
    requires Braceless(name) && PlainInBraces(labels)
    ensures ParsePodMetric(PrintLine(name, labels, value), number) ==
      Recovered(number(Trim(" " + value)), PodKeyOf(MapOf(labels)))
    ensures ParseNodeMetric(PrintLine(name, labels, value), number) ==
      Recovered(number(Trim(" " + value)), NodeNameOf(MapOf(labels)))
  {
    MetricRoundTrip(name, labels, value, number, PodKeyOf);
    MetricRoundTrip(name, labels, value, number, NodeNameOf);
  }

  function PodLabels(k: PodKey): seq<Label>
  {
    [Label("pod_id", k.podId), Label("pod_name", k.podName), Label("pod_namespace", k.podNamespace),
     Label("node_name", k.nodeName), Label("state", k.state)]
  }

  predicate PlainValue(s: string)
  {
    '\"' !in s && '}' !in s
  }

  predicate PlainPod(k: PodKey)
  {
    && PlainValue(k.podId) && PlainValue(k.podName) && PlainValue(k.podNamespace)
    && PlainValue(k.nodeName) && PlainValue(k.state)
  }

  /** Keys of small letters and underscores are plain. */
  predicate SmallLetters(s: string)
  {
    forall i :: 0 <= i < |s| ==> 'a' <= s[i] <= 'z' || s[i] == '_'
  }

  lemma SmallLettersArePlain(s: string, value: string)
    requires SmallLetters(s) && PlainValue(value)
    ensures Plain(Label(s, value)) && '}' !in s
  {
    CleanKeeps(s);
  }

  lemma PodKeysAreLetters()
    ensures SmallLetters("pod_id") && SmallLetters("state")
  {
  }

  lemma NameKeysAreLetters()
    ensures SmallLetters("pod_name") && SmallLetters("node_name") && SmallLetters("pod_namespace")
  {
    assert SmallLetters("pod_") && SmallLetters("name") && SmallLetters("node_") && SmallLetters("space");
    assert "pod_name" == "pod_" + "name" && "node_name" == "node_" + "name" && "pod_namespace" == "pod_name" + "space";
  }

  lemma PodLabelsArePlain(k: PodKey)
    requires PlainPod(k)
    ensures PlainInBraces(PodLabels(k))
  {
    PodKeysAreLetters();
    NameKeysAreLetters();
    SmallLettersArePlain("pod_id", k.podId);
    SmallLettersArePlain("pod_name", k.podName);
    SmallLettersArePlain("pod_namespace", k.podNamespace);
    SmallLettersArePlain("node_name", k.nodeName);
    SmallLettersArePlain("state", k.state);
    var l := PodLabels(k);
    forall i | 0 <= i < |l| ensures Plain(l[i]) && '}' !in l[i].key && '}' !in l[i].value {
      assert i == 0 || i == 1 || i == 2 || i == 3 || i == 4;
    }
  }

  lemma PodLabelsMap(k: PodKey)
    ensures PodKeyOf(MapOf(PodLabels(k))) == Some(k) && NodeNameOf(MapOf(PodLabels(k))) == Some(k.nodeName)
  {
    var l := PodLabels(k);
    PodKeysDiffer();
    forall i | 0 <= i < |l| ensures l[i].key in MapOf(l) && MapOf(l)[l[i].key] == l[i].value { DistinctValue(l, i); }
    assert l[0].key == "pod_id" && l[1].key == "pod_name" && l[2].key == "pod_namespace";
    assert l[3].key == "node_name" && l[4].key == "state";
  }

  lemma PodKeysDiffer()
    ensures Differ("pod_id", "pod_name", "pod_namespace", "node_name", "state")
  {
    assert |"pod_id"| == 6 && |"pod_name"| == 8 && |"pod_namespace"| == 13 && |"node_name"| == 9 && |"state"| == 5;
  }

  predicate Differ(a: string, b: string, c: string, d: string, e: string)
  {
    a != b && a != c && a != d && a != e && b != c && b != d && b != e && c != d && c != e && d != e
  }

  /** The line printed for a pod gives back the pod and its value, for any pod without quotes and braces. */
  lemma PodLineRoundTrip(name: string, k: PodKey, value: string, number: string -> Option<real>)
    requires Braceless(name) && PlainPod(k) && number(Trim(" " + value)).Some?
    ensures ParsePodMetric(PrintLine(name, PodLabels(k), value), number) == Metric(k, number(Trim(" " + value)).value)
    ensures ParseNodeMetric(PrintLine(name, PodLabels(k), value), number) ==
      Metric(k.nodeName, number(Trim(" " + value)).value)
  {
    PodLabelsArePlain(k);
    PodLabelsMap(k);
    PodAndNodeRoundTrip(name, PodLabels(k), value, number);
  }

  /** The first '}' is at i and the first '{' is at j, after it. */
  predicate ClosesFirst(line: string, i: nat, j: nat)
  {
    i < j < |line| && line[i] == '}' && '}' !in line[..i] && line[j] == '{' && '{' !in line[..j]
  }

  lemma FirstAt(s: string, c: char, i: nat)
    requires i < |s| && s[i] == c && c !in s[..i]
    ensures Find(s, c) == Some(i)
  {
    assert s == s[..i] + [c] + s[i + 1..];
    FindSkips(s[..i], c, s[i + 1..]);
  }

  /** The parser itself panics exactly on the lines whose first '}' comes before their first '{'. */
  lemma PanicsIff<T>(line: string, number: string -> Option<real>, pick: map<string, string> -> Option<T>)
    ensures ParseMetric(line, number, pick).Panics? <==> exists i, j :: ClosesFirst(line, i, j)
  {
    var start, end := Find(line, '{'), Find(line, '}');
    if start.Some? && end.Some? && end.value < start.value {
      assert ClosesFirst(line, end.value, start.value);
    }
    if i, j :| ClosesFirst(line, i, j) {
      FirstAt(line, '}', i);
      FirstAt(line, '{', j);
    }
  }

  /** It is only called on lines that start with a metric name and '{', and on those it never panics,
      whatever follows. */
  lemma MetricLinesNeverPanic<T>(name: string, rest: string, number: string -> Option<real>,
                                 pick: map<string, string> -> Option<T>)
    requires Braceless(name)
    ensures !ParseMetric(name + "{" + rest, number, pick).Panics?
  {
    var line := name + "{" + rest;
    assert line == name + ['{'] + rest;
    FindSkips(name, '{', rest);
    var end := Find(line, '}');
    if end.Some? && end.value <= |name| {
      NotBefore(name, rest, end.value);
    }
  }

  lemma NotBefore(name: string, rest: string, i: nat)
    requires i <= |name| && Braceless(name)
    ensures (name + "{" + rest)[i] != '}'
  {
    if i < |name| { assert (name + "{" + rest)[i] == name[i]; }
  }
}
