/** String and map helpers of the discovery service (utils.go): map lookup with
    a default, Go's `strings.Split`/`strings.Join` on one separator, the
    `k:v,k:v` label parser and the key listing of a map. */
module Utils {

  /** `getFromMapOrDefault`: the value stored under `key`, even an empty one,
      and `default` only when the key is absent. */
  function GetFromMapOrDefault(key: string, m: map<string, string>, default: string): (r: string)
    ensures key in m ==> r == m[key]
    ensures key !in m ==> r == default
  {
    if key in m then m[key] else default
  }

  /** Position of the first occurrence of `c` in `s`. */
  function IndexOf(s: string, c: char): (i: nat)
    requires c in s
    ensures i < |s| && s[i] == c && c !in s[..i]
  {
    if s[0] == c then 0 else 1 + IndexOf(s[1..], c)
  }

  /** Go's `strings.Split(s, string(sep))`: the pieces between successive
      separators; the empty string splits into one empty piece. */
  function Split(s: string, sep: char): (parts: seq<string>)
    ensures |parts| >= 1
    ensures forall i :: 0 <= i < |parts| ==> sep !in parts[i]
    decreases |s|
  {
    if sep !in s then [s]
    else
      var i := IndexOf(s, sep);
      [s[..i]] + Split(s[i + 1..], sep)
  }

  /** Go's `strings.Join(parts, string(sep))`: no pieces give "", otherwise
      the first piece comes first, followed by the separator when more follow. */
  function Join(parts: seq<string>, sep: char): string
  {
    if |parts| == 0 then ""
    else if |parts| == 1 then parts[0]
    else parts[0] + [sep] + Join(parts[1..], sep)
  }

  /** A string splits into the one piece that is itself exactly when it has
      no separator; in particular "" splits into [""]. */
  lemma SplitWhole(s: string, sep: char)
    ensures sep !in s <==> Split(s, sep) == [s]
    ensures sep !in s <==> |Split(s, sep)| == 1
  {
    if sep in s {
      var i := IndexOf(s, sep);
      assert Split(s, sep) == [s[..i]] + Split(s[i + 1..], sep);
    }
  }

  /** A join of no pieces is ""; otherwise it starts with the first piece,
      followed by the separator when more pieces follow. */
  lemma JoinPieces(parts: seq<string>, sep: char)
    ensures |parts| == 0 ==> Join(parts, sep) == ""
    ensures |parts| >= 1 ==> parts[0] <= Join(parts, sep)
    ensures |parts| >= 2 ==> |Join(parts, sep)| > |parts[0]| && Join(parts, sep)[|parts[0]|] == sep
  {
    if |parts| >= 2 {
      assert Join(parts, sep) == parts[0] + [sep] + Join(parts[1..], sep);
    }
  }

  /** Joining the pieces of a split gives the string back. */
  lemma {:induction false} JoinSplit(s: string, sep: char)
    ensures Join(Split(s, sep), sep) == s
    decreases |s|
  {
    if sep in s {
      var i := IndexOf(s, sep);
      var rest := s[i + 1..];
      var parts := Split(s, sep);
      assert parts == [s[..i]] + Split(rest, sep);
      assert parts[1..] == Split(rest, sep);
      assert Join(parts, sep) == s[..i] + [sep] + Join(Split(rest, sep), sep);
      JoinSplit(rest, sep);
      assert s == s[..i] + [sep] + rest;
    }
  }

  /** Splitting a join of separator-free pieces gives the pieces back. */
  lemma {:induction false} SplitJoin(parts: seq<string>, sep: char)
    requires |parts| >= 1
    requires forall i :: 0 <= i < |parts| ==> sep !in parts[i]
    ensures Split(Join(parts, sep), sep) == parts
  {
    if |parts| > 1 {
      var p, rest := parts[0], Join(parts[1..], sep);
      assert Join(parts, sep) == p + [sep] + rest;
      SplitAppend(p, sep, rest);
      SplitJoin(parts[1..], sep);
      assert parts == [p] + parts[1..];
    }
  }

  /** The first occurrence of `c` is the one with no `c` before it. */
  lemma {:induction false} IndexOfAt(s: string, c: char, i: nat)
    requires i < |s| && s[i] == c && c !in s[..i]
    ensures c in s && IndexOf(s, c) == i
  {
    if i > 0 {
      assert s[0] in s[..i];
      assert s[1..][..i - 1] == s[1..i];
      assert forall x :: x in s[1..i] ==> x in s[..i];
      IndexOfAt(s[1..], c, i - 1);
    }
  }

  /** In `p + [sep] + t` with `sep` not in `p`, the first separator is the one after `p`. */
  lemma FirstSeparator(p: string, sep: char, t: string)
    requires sep !in p
    ensures sep in p + [sep] + t && IndexOf(p + [sep] + t, sep) == |p|
  {
    var s := p + [sep] + t;
    assert s[..|p|] == p;
    IndexOfAt(s, sep, |p|);
  }

  /** Splitting a concatenation around one separator splits each side. */
  lemma {:induction false} SplitAppend(s: string, sep: char, t: string)
    ensures Split(s + [sep] + t, sep) == Split(s, sep) + Split(t, sep)
    decreases |s|
  {
    if sep !in s {
      SplitAfterFirst(s, sep, t);
    } else {
      var i := IndexOf(s, sep);
      var head, tail := [s[..i]], s[i + 1..];
      SplitAfterEarlier(s, sep, t);
      SplitAppend(tail, sep, t);
      var a, b := Split(tail, sep), Split(t, sep);
      assert Split(s + [sep] + t, sep) == head + (a + b);
      assert Split(s, sep) == head + a;
      ConcatAssoc(head, a, b);
    }
  }

  lemma ConcatAssoc<T>(x: seq<T>, y: seq<T>, z: seq<T>)
    ensures x + (y + z) == (x + y) + z
  {
  }

  /** Splitting `p + [sep] + t` with no separator in `p` cuts at that separator. */
  lemma SplitAfterFirst(p: string, sep: char, t: string)
    requires sep !in p
    ensures Split(p + [sep] + t, sep) == [p] + Split(t, sep)
  {
    var u := p + [sep] + t;
    FirstSeparator(p, sep, t);
    assert u[..|p|] == p;
    assert u[|p| + 1..] == t;
  }

  /** A separator inside `s` is still the first one of `s + [sep] + t`. */
  lemma SplitAfterEarlier(s: string, sep: char, t: string)
    requires sep in s
    ensures var i := IndexOf(s, sep);
      Split(s + [sep] + t, sep) == [s[..i]] + Split(s[i + 1..] + [sep] + t, sep)
  {
    var i := IndexOf(s, sep);
    var u := s + [sep] + t;
    assert u[..i] == s[..i];
    IndexOfAt(u, sep, i);
    assert u[i + 1..] == s[i + 1..] + [sep] + t;
  }

  /** The label name of one comma-separated segment: the text before its first `:`. */
  function SegmentKey(pair: string): string
  {
    Split(pair, ':')[0]
  }

  /** The label value of one segment: the colon-joined rest, or "" when it has no `:`. */
  function SegmentValue(pair: string): string
  {
    var z := Split(pair, ':');
    if |z| < 2 then "" else Join(z[1..], ':')
  }

  /** A segment maps the text before its first `:` to everything after it,
      inner colons included; a segment with no `:` maps itself to "". */
  lemma SegmentKeyValue(pair: string)
    ensures ':' !in pair ==> SegmentKey(pair) == pair && SegmentValue(pair) == ""
    ensures ':' in pair ==>
      var i := IndexOf(pair, ':');
      SegmentKey(pair) == pair[..i] && SegmentValue(pair) == pair[i + 1..]
  {
    var z := Split(pair, ':');
    if ':' in pair {
      var i := IndexOf(pair, ':');
      var rest := pair[i + 1..];
      assert z == [pair[..i]] + Split(rest, ':');
      assert z[1..] == Split(rest, ':');
      JoinSplit(rest, ':');
    } else {
      assert z == [pair];
    }
  }

  /** The labels the segments assign, left to right, a later segment
      overwriting an earlier one with the same name. */
  function Assign(segments: seq<string>): map<string, string>
  {
    if segments == [] then map[]
    else
      var last := segments[|segments| - 1];
      Assign(segments[..|segments| - 1])[SegmentKey(last) := SegmentValue(last)]
  }

  /** The map `parseCSLabels(labels)` returns. */
  function CSLabels(labels: string): map<string, string>
  {
    if labels == "" then map[] else Assign(Split(labels, ','))
  }

  /** `parseCSLabels`: split on `,`, then store each segment's name and value. */
  method ParseCSLabels(labels: string) returns (m: map<string, string>)
    ensures m == CSLabels(labels)
  {
    m := map[];
    if labels == "" {
      return;
    }
    var ss := Split(labels, ',');
    var i := 0;
    while i < |ss|
      invariant 0 <= i <= |ss|
      invariant m == Assign(ss[..i])
    {
      var z := Split(ss[i], ':');
      if |z| < 2 {
        m := m[z[0] := ""];
      } else {
        m := m[z[0] := Join(z[1..], ':')];
      }
      assert ss[..i + 1][..i] == ss[..i];
      i := i + 1;
    }
    assert ss[..i] == ss;
  }

  /** The names the segments define are exactly the parsed keys, and there
      are at most as many keys as segments. */
  lemma {:induction false} AssignKeys(segments: seq<string>)
    ensures Assign(segments).Keys == (set s | s in segments :: SegmentKey(s))
    ensures |Assign(segments)| <= |segments|
  {
    if segments != [] {
      var init := segments[..|segments| - 1];
      AssignKeys(init);
      assert segments == init + [segments[|segments| - 1]];
    }
  }

  /** A segment whose name no later segment repeats decides that name's value. */
  lemma {:induction false} AssignLastWins(segments: seq<string>, i: nat)
    requires i < |segments|
    requires forall j :: i < j < |segments| ==> SegmentKey(segments[j]) != SegmentKey(segments[i])
    ensures SegmentKey(segments[i]) in Assign(segments)
    ensures Assign(segments)[SegmentKey(segments[i])] == SegmentValue(segments[i])
  {
    var n := |segments|;
    if i < n - 1 {
      var init := segments[..n - 1];
      assert init[i] == segments[i];
      forall j | i < j < |init| ensures SegmentKey(init[j]) != SegmentKey(init[i]) {
        assert init[j] == segments[j];
      }
      AssignLastWins(init, i);
    }
  }

  /** The empty label string parses to the empty map. */
  lemma EmptyLabels()
    ensures CSLabels("") == map[]
  {
  }

  /** A label string without a comma is a single segment. */
  lemma SingleSegment(labels: string)
    requires labels != "" && ',' !in labels
    ensures CSLabels(labels) == map[SegmentKey(labels) := SegmentValue(labels)]
  {
    assert Split(labels, ',') == [labels];
    assert [labels][..0] == [];
    assert Assign([]) == map[];
    assert Assign([labels]) == map[][SegmentKey(labels) := SegmentValue(labels)];
  }

  /** A trailing comma adds the empty name with the empty value. */
  lemma TrailingComma(labels: string)
    ensures "" in CSLabels(labels + ",") && CSLabels(labels + ",")[""] == ""
  {
    var s := labels + ",";
    assert s == labels + [','] + "";
    SplitAppend(labels, ',', "");
    var segs := Split(s, ',');
    assert segs[|segs| - 1] == "";
    SegmentKeyValue("");
    AssignLastWins(segs, |segs| - 1);
  }

  /** The segment text `k:v` of one label. */
  function EncodePair(p: (string, string)): string
  {
    p.0 + [':'] + p.1
  }

  /** The segments of a label list, in order. */
  function EncodeSegments(ps: seq<(string, string)>): (segs: seq<string>)
    ensures |segs| == |ps|
    ensures forall i :: 0 <= i < |ps| ==> segs[i] == EncodePair(ps[i])
  {
    if ps == [] then [] else [EncodePair(ps[0])] + EncodeSegments(ps[1..])
  }

  /** Labels whose names contain neither `,` nor `:`, whose values contain no
      `,`, and whose names are distinct. */
  ghost predicate Encodable(ps: seq<(string, string)>)
  {
    && (forall i :: 0 <= i < |ps| ==> ',' !in ps[i].0 && ':' !in ps[i].0 && ',' !in ps[i].1)
    && (forall i, j :: 0 <= i < j < |ps| ==> ps[i].0 != ps[j].0)
  }

  /** The segment of a label whose name has no `:` reads back as that label. */
  lemma SegmentOfPair(p: (string, string))
    requires ':' !in p.0
    ensures SegmentKey(EncodePair(p)) == p.0 && SegmentValue(EncodePair(p)) == p.1
  {
    var sg := EncodePair(p);
    FirstSeparator(p.0, ':', p.1);
    SegmentKeyValue(sg);
    assert sg[..|p.0|] == p.0;
    assert sg[|p.0| + 1..] == p.1;
  }

  /** Parsing the comma-join of `k:v` segments gives back exactly those labels. */
  lemma CSLabelsRoundTrip(ps: seq<(string, string)>)
    requires Encodable(ps)
    ensures CSLabels(Join(EncodeSegments(ps), ',')).Keys == (set i | 0 <= i < |ps| :: ps[i].0)
    ensures forall i :: 0 <= i < |ps| ==> CSLabels(Join(EncodeSegments(ps), ','))[ps[i].0] == ps[i].1
  {
    var segs := EncodeSegments(ps);
    if ps != [] {
      EncodedSplit(ps);
      forall i | 0 <= i < |ps|
        ensures SegmentKey(segs[i]) == ps[i].0 && SegmentValue(segs[i]) == ps[i].1
      {
        SegmentOfPair(ps[i]);
      }
      AssignedPairs(ps, segs);
    }
  }

  /** The comma-join of a non-empty label list is non-empty and splits back into its segments. */
  lemma EncodedSplit(ps: seq<(string, string)>)
    requires Encodable(ps) && ps != []
    ensures CSLabels(Join(EncodeSegments(ps), ',')) == Assign(EncodeSegments(ps))
  {
    var segs := EncodeSegments(ps);
    assert |segs[0]| > 0;
    forall i | 0 <= i < |segs| ensures ',' !in segs[i] {
      assert segs[i] == ps[i].0 + [':'] + ps[i].1;
    }
    SplitJoin(segs, ',');
  }

  /** The map the encoded segments assign holds exactly the original labels. */
  lemma AssignedPairs(ps: seq<(string, string)>, segs: seq<string>)
    requires Encodable(ps) && |segs| == |ps|
    requires forall i :: 0 <= i < |ps| ==> SegmentKey(segs[i]) == ps[i].0 && SegmentValue(segs[i]) == ps[i].1
    ensures Assign(segs).Keys == (set i | 0 <= i < |ps| :: ps[i].0)
    ensures forall i :: 0 <= i < |ps| ==> Assign(segs)[ps[i].0] == ps[i].1
  {
    AssignKeys(segs);
    var m := Assign(segs);
    forall k | k in m.Keys ensures k in (set i | 0 <= i < |ps| :: ps[i].0) {
      var sg :| sg in segs && SegmentKey(sg) == k;
      var i :| 0 <= i < |segs| && segs[i] == sg;
      assert ps[i].0 == k;
    }
    forall i | 0 <= i < |ps| ensures ps[i].0 in m.Keys && m[ps[i].0] == ps[i].1 {
      AssignLastWins(segs, i);
    }
  }

  /** `getContainerPortsNetworkConfig` and `getNetworkNamesFromNetworks`:
      every key of the map exactly once, in the map's (unspecified) iteration
      order, written by index into a slice of the map's size. */
  method MapKeys<K(==, 0), V>(m: map<K, V>) returns (keys: seq<K>)
    ensures |keys| == |m|
    ensures forall k :: k in m <==> k in keys
    ensures forall i, j :: 0 <= i < j < |keys| ==> keys[i] != keys[j]
  {
    var a := new K[|m|];
    var rest := m.Keys;
    var i := 0;
    ghost var listed: seq<K> := [];
    while rest != {}
      invariant rest <= m.Keys
      invariant 0 <= i <= a.Length && i + |rest| == |m|
      invariant a[..i] == listed
      invariant forall j :: 0 <= j < i ==> listed[j] in m && listed[j] !in rest
      invariant forall k :: k in m && k !in rest ==> k in listed
      invariant forall j, l :: 0 <= j < l < i ==> listed[j] != listed[l]
      decreases |rest|
    {
      var k :| k in rest;
      a[i] := k;
      listed := listed + [k];
      rest := rest - {k};
      i := i + 1;
    }
    keys := a[..];
  }
}
