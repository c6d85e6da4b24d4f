// The Python values that definitions, manifests and payloads are made of.
module Json {
  // The text str() gives for a number, a list or a dict: never empty.
  type Text = s: string | |s| > 0 witness "0"

  datatype Value =
    | Null
    | Bool(b: bool)
    | Number(zero: bool, shown: Text)
    | String(s: string)
    | List(items: seq<Value>, shown: Text)
    | Object(fields: map<Key, Value>, shown: Text)

  // The keys of dicts: those the code names, and any other.
  datatype Key =
    | NodeId | StepId | AgentId | NodeType | ActivationPolicy | ActivationStage | Capabilities | AllowedTools
    | DataScope | SideEffectLevel | EdgeId | FromNodeId | ToNodeId | From | To | Conditions | Task | Label
    | ToolName | ToolArgs | Role | Runtime | Metadata | VisualConnections | Keywords | ActivationKeywords | Id
    | Domain | PolicyBindings | ReviewRules | GraphVersionHash | VersionCreatedFrom
    | Other(name: string)

  type Dict = map<Key, Value>

  // bool(v)
  predicate Truthy(v: Value) {
    match v
    case Null => false
    case Bool(b) => b
    case Number(zero, _) => !zero
    case String(s) => |s| > 0
    case List(items, _) => |items| > 0
    case Object(fields, _) => fields != map[]
  }

  // str(v)
  function Shown(v: Value): (s: string)
    ensures Truthy(v) ==> |s| > 0
  {
    match v
    case Null => "None"
    case Bool(b) => if b then "True" else "False"
    case Number(_, shown) => shown
    case String(s) => s
    case List(_, shown) => shown
    case Object(_, shown) => shown
  }

  // d.get(k)
  function Get(d: Dict, k: Key): Value {
    if k in d then d[k] else Null
  }

  // a or b
  function Or(a: Value, b: Value): Value {
    if Truthy(a) then a else b
  }

  // d if it is a dict, and otherwise an empty one
  function DictOrEmpty(v: Value): Dict {
    if v.Object? then v.fields else map[]
  }

  // [item for item in items if isinstance(item, dict)]
  function Dicts(items: seq<Value>): (ds: seq<Dict>)
    ensures |ds| <= |items|
  {
    if |items| == 0 then []
    else Dicts(items[..|items| - 1]) + (if items[|items| - 1].Object? then [items[|items| - 1].fields] else [])
  }

  // A list of dicts as a value; the text is only needed where str() is taken of the list.
  function Listed(ds: seq<Dict>): Value {
    List(seq(|ds|, i requires 0 <= i < |ds| => Object(ds[i], "{}")), "[]")
  }

  lemma {:induction false} DictsOfListed(ds: seq<Dict>)
    ensures Dicts(Listed(ds).items) == ds
  {
    if |ds| > 0 {
      var front := ds[..|ds| - 1];
      DictsOfListed(front);
      assert Listed(front).items == Listed(ds).items[..|ds| - 1];
    }
  }

  // --- strip() ----------------------------------------------------------------

  predicate Space(c: char) {
    || '\U{09}' <= c <= '\U{0D}' || '\U{1C}' <= c <= '\U{20}' || c == '\U{85}' || c == '\U{A0}'
    || c == '\U{1680}' || '\U{2000}' <= c <= '\U{200A}' || c == '\U{2028}' || c == '\U{2029}'
    || c == '\U{202F}' || c == '\U{205F}' || c == '\U{3000}'
  }

  // The characters strip() takes for spaces.
  const SPACES: set<char> := {
    '\U{09}', '\U{0A}', '\U{0B}', '\U{0C}', '\U{0D}', '\U{1C}', '\U{1D}', '\U{1E}', '\U{1F}', ' ', '\U{85}', '\U{A0}', '\U{1680}',
    '\U{2000}', '\U{2001}', '\U{2002}', '\U{2003}', '\U{2004}', '\U{2005}', '\U{2006}', '\U{2007}', '\U{2008}', '\U{2009}', '\U{200A}',
    '\U{2028}', '\U{2029}', '\U{202F}', '\U{205F}', '\U{3000}'}

  lemma SpacesListed(c: char)
    ensures Space(c) <==> c in SPACES
  {
  }

  function StripLeft(s: string): string {
    if |s| > 0 && Space(s[0]) then StripLeft(s[1..]) else s
  }

  function StripRight(s: string): string {
    if |s| > 0 && Space(s[|s| - 1]) then StripRight(s[..|s| - 1]) else s
  }

  function Strip(s: string): string {
    StripRight(StripLeft(s))
  }

  predicate Stripped(s: string) {
    |s| > 0 ==> !Space(s[0]) && !Space(s[|s| - 1])
  }

  lemma {:induction false} StripRightEnds(s: string)
    ensures var r := StripRight(s);
            r <= s && (|r| > 0 ==> !Space(r[|r| - 1]))
  {
    if |s| > 0 && Space(s[|s| - 1]) {
      StripRightEnds(s[..|s| - 1]);
    }
  }

  lemma {:induction false} StripLeftStarts(s: string)
    ensures var r := StripLeft(s); |r| > 0 ==> !Space(r[0])
  {
    if |s| > 0 && Space(s[0]) {
      StripLeftStarts(s[1..]);
    }
  }

  // s[i..j] is s without the spaces at its ends.
  ghost predicate Middle(s: string, i: nat, j: nat) {
    && i <= j <= |s|
    && (forall k :: 0 <= k < i || j <= k < |s| ==> s[k] in SPACES)
    && (i < j ==> s[i] !in SPACES && s[j - 1] !in SPACES)
  }

  lemma {:induction false} StripLeftDrops(s: string) returns (i: nat)
    ensures i <= |s| && StripLeft(s) == s[i..]
    ensures forall k :: 0 <= k < i ==> s[k] in SPACES
    ensures i < |s| ==> s[i] !in SPACES
  {
    i := 0;
    if |s| > 0 {
      SpacesListed(s[0]);
      if Space(s[0]) {
        var j := StripLeftDrops(s[1..]);
        i := j + 1;
        assert s[1..][j..] == s[i..];
        assert forall k :: 0 < k < i ==> s[k] == s[1..][k - 1];
      }
    }
  }

  lemma {:induction false} StripRightDrops(s: string) returns (j: nat)
    ensures j <= |s| && StripRight(s) == s[..j]
    ensures forall k :: j <= k < |s| ==> s[k] in SPACES
    ensures j > 0 ==> s[j - 1] !in SPACES
  {
    j := |s|;
    if |s| > 0 {
      SpacesListed(s[|s| - 1]);
      if Space(s[|s| - 1]) {
        j := StripRightDrops(s[..|s| - 1]);
        assert s[..|s| - 1][..j] == s[..j];
      }
    }
  }

  lemma StripMeans(s: string) returns (i: nat, j: nat)
    ensures Middle(s, i, j) && Strip(s) == s[i..j]
  {
    hide SPACES;
    i := StripLeftDrops(s);
    var n := StripRightDrops(s[i..]);
    j := i + n;
    assert s[i..][..n] == s[i..j];
    assert forall k :: i <= k < |s| ==> s[k] == s[i..][k - i];
  }

  lemma StripStrips(s: string)
    ensures Stripped(Strip(s)) && Strip(Strip(s)) == Strip(s)
  {
    StripLeftStarts(s);
    StripRightEnds(StripLeft(s));
  }

  lemma StrippedFixed(s: string)
    ensures Stripped(s) ==> Strip(s) == s
  {
  }
}
