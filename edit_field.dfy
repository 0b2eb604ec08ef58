/** `EditField`: the seven fields of the terminal edit form, how each one is shown as
    text and how text typed into it is stored back into a tunnel definition. */
module EditFields {
  import opened Wrappers
  import opened Strings
  import T = Types

  datatype EditField = Name | Context | Namespace | Service | Ports | LocalInterface | ForwardType

  /** The fields in form order (`EditField::ALL`). */
  const All: seq<EditField> := [Name, Context, Namespace, Service, Ports, LocalInterface, ForwardType]

  /** `EditField::count`. */
  function Count(): (n: nat)
    ensures n == 7
  {
    |All|
  }

  /** `EditField::from_index`. */
  function FromIndex(i: nat): (f: Option<EditField>)
    ensures f.Some? <==> i < Count()
    ensures f.Some? ==> f.value == All[i]
  {
    if i < |All| then Some(All[i]) else None
  }

  /** `EditField::index`: the position of a field in form order. */
  function Index(f: EditField): (i: nat)
    ensures i < Count() && All[i] == f
  {
    match f
    case Name => 0
    case Context => 1
    case Namespace => 2
    case Service => 3
    case Ports => 4
    case LocalInterface => 5
    case ForwardType => 6
  }

  /** Positions and fields correspond one to one. */
  lemma IndexRoundTrip(i: nat, f: EditField)
    ensures FromIndex(Index(f)) == Some(f)
    ensures i < Count() ==> Index(FromIndex(i).value) == i
  {
    if i < Count() {
      var g := FromIndex(i).value;
      assert All[Index(g)] == g == All[i];
      assert forall a, b :: 0 <= a < b < |All| ==> All[a] != All[b];
    }
  }

  /** `supports_autocomplete`. */
  predicate SupportsAutocomplete(f: EditField) {
    f in {Context, Namespace, Service, Ports, ForwardType}
  }

  /** `triggers_name_generation`. */
  predicate TriggersNameGeneration(f: EditField) {
    f in {Service, Ports, ForwardType}
  }

  /** The fields that regenerate a name all offer suggestions; the name and the local
      interface do neither. */
  lemma FieldCapabilities()
    ensures forall f :: TriggersNameGeneration(f) ==> SupportsAutocomplete(f)
    ensures !SupportsAutocomplete(Name) && !SupportsAutocomplete(LocalInterface)
    ensures |set f | f in All && SupportsAutocomplete(f)| == 5
    ensures |set f | f in All && TriggersNameGeneration(f)| == 3
  {
    assert (set f | f in All && SupportsAutocomplete(f)) == {Context, Namespace, Service, Ports, ForwardType};
    assert (set f | f in All && TriggersNameGeneration(f)) == {Service, Ports, ForwardType};
  }

  /** The text shown for the ports: the mappings separated by `, `. */
  function ShowPorts(ports: seq<string>): string {
    Join(ports, ", ")
  }

  /** The ports read from typed text: split at commas, trimmed, blanks dropped. */
  function ReadPorts(value: string): (ports: seq<string>)
    ensures forall i :: 0 <= i < |ports| ==> ports[i] != [] && IsTrimmed(ports[i]) && ',' !in ports[i]
  {
    var pieces := Split(value, ',');
    var ports := NonEmptyTrimmed(pieces);
    NonEmptyTrimmedNoComma(pieces);
    ports
  }

  /** Trimming a piece without commas leaves none. */
  lemma {:induction false} NonEmptyTrimmedNoComma(pieces: seq<string>)
    requires forall i :: 0 <= i < |pieces| ==> ',' !in pieces[i]
    ensures forall i :: 0 <= i < |NonEmptyTrimmed(pieces)| ==> ',' !in NonEmptyTrimmed(pieces)[i]
  {
    if pieces != [] {
      NonEmptyTrimmedNoComma(pieces[1..]);
      TrimInfix(pieces[0]);
    }
  }

  /** A trimmed text is a part of the text it was trimmed from. */
  lemma TrimInfix(s: string)
    ensures forall c :: c in Trim(s) ==> c in s
  {
    var a := TrimStart(s);
    assert a == s[|s| - |a|..];
    assert Trim(s) == a[..|Trim(s)|];
  }

  /** `get_value`. */
  function GetValue(f: EditField, c: T.PortForwardConfig): string {
    match f
    case Name => c.name
    case Context => c.context
    case Namespace => c.namespace
    case Service => c.service
    case Ports => ShowPorts(c.ports)
    case LocalInterface => (match c.localInterface case Some(i) => i case None => "")
    case ForwardType => (match c.forwardType case Kubectl => "kubectl" case Ssh => "ssh")
  }

  /** `set_value`: only the field's own part of the definition changes. */
  function SetValue(f: EditField, c: T.PortForwardConfig, value: string): (r: T.PortForwardConfig)
    ensures f != Name ==> r.name == c.name
    ensures f != Context ==> r.context == c.context
    ensures f != Namespace ==> r.namespace == c.namespace
    ensures f != Service ==> r.service == c.service
    ensures f != Ports ==> r.ports == c.ports
    ensures f != LocalInterface ==> r.localInterface == c.localInterface
    ensures f != ForwardType ==> r.forwardType == c.forwardType
    ensures f == LocalInterface ==> (r.localInterface.None? <==> value == [])
    ensures f == ForwardType ==> (r.forwardType == T.Ssh <==> ToLower(value) == "ssh")
  {
    match f
    case Name => c.(name := value)
    case Context => c.(context := value)
    case Namespace => c.(namespace := value)
    case Service => c.(service := value)
    case Ports => c.(ports := ReadPorts(value))
    case LocalInterface => c.(localInterface := if value == [] then None else Some(value))
    case ForwardType => c.(forwardType := if ToLower(value) == "ssh" then T.Ssh else T.Kubectl)
  }

  /** What is typed into a text field is what the field then shows. */
  lemma GetAfterSet(f: EditField, c: T.PortForwardConfig, value: string)
    requires f in {Name, Context, Namespace, Service, LocalInterface}
    ensures GetValue(f, SetValue(f, c, value)) == value
  {
  }

  /** The backend field ignores case: `SSH`, `Ssh` and `ssh` all choose ssh. */
  lemma ForwardTypeIgnoresCase(c: T.PortForwardConfig)
    ensures SetValue(ForwardType, c, "SSH").forwardType == T.Ssh
    ensures SetValue(ForwardType, c, "Ssh").forwardType == T.Ssh
    ensures SetValue(ForwardType, c, "ssh").forwardType == T.Ssh
  {
    assert ToLower("SSH") == "ssh";
    assert ToLower("Ssh") == "ssh";
    assert ToLower("ssh") == "ssh";
  }

  /** A definition whose field survives being shown and read back: port mappings that
      are non-empty, trimmed and free of commas, and no empty local interface. */
  predicate ShowsFaithfully(f: EditField, c: T.PortForwardConfig) {
    && (f == Ports ==> forall i :: 0 <= i < |c.ports| ==> c.ports[i] != [] && IsTrimmed(c.ports[i]) && ',' !in c.ports[i])
    && (f == LocalInterface ==> c.localInterface != Some([]))
  }

  /** Storing back what a field shows leaves the definition as it was. */
  lemma SetGetRoundTrip(f: EditField, c: T.PortForwardConfig)
    requires ShowsFaithfully(f, c)
    ensures SetValue(f, c, GetValue(f, c)) == c
  {
    match f
    case Ports =>
      PortsRoundTrip(c.ports);
    case ForwardType =>
      assert ToLower("ssh") == "ssh";
      assert |ToLower("kubectl")| == 7;
    case _ =>
  }

  /** Port mappings shown and read back are the same mappings. */
  lemma PortsRoundTrip(ports: seq<string>)
    requires forall i :: 0 <= i < |ports| ==> ports[i] != [] && IsTrimmed(ports[i]) && ',' !in ports[i]
    ensures ReadPorts(ShowPorts(ports)) == ports
  {
    if ports == [] {
      assert Split([], ',') == [[]];
      assert Trim([]) == [];
    } else {
      var pieces := [ports[0]] + Spaced(ports[1..]);
      ShownAsPieces(ports);
      assert forall i :: 0 <= i < |pieces| ==> ',' !in pieces[i];
      SplitJoin(pieces, ',');
      assert Split(ShowPorts(ports), ',') == pieces;
      PiecesTrimmed(ports);
    }
  }

  /** Trimming the pieces of shown ports gives the mappings back. */
  lemma PiecesTrimmed(ports: seq<string>)
    requires ports != []
    requires forall i :: 0 <= i < |ports| ==> ports[i] != [] && IsTrimmed(ports[i])
    ensures NonEmptyTrimmed([ports[0]] + Spaced(ports[1..])) == ports
  {
    var rest := ports[1..];
    var pieces := [ports[0]] + Spaced(rest);
    TrimAfterSpace(ports[0]);
    NonEmptyTrimmedSpaced(rest);
    assert pieces[1..] == Spaced(rest);
    assert ports == [ports[0]] + rest;
  }

  /** The shown ports are the first mapping and the others behind a space, separated
      by commas. */
  lemma ShownAsPieces(ports: seq<string>)
    requires ports != []
    ensures Join(ports, ", ") == Join([ports[0]] + Spaced(ports[1..]), [','])
  {
    var rest := ports[1..];
    var pieces := [ports[0]] + Spaced(rest);
    if rest != [] {
      var joined := Join(rest, ", ");
      JoinSpaced(rest);
      assert Join(ports, ", ") == ports[0] + ", " + joined;
      assert pieces[1..] == Spaced(rest);
      assert Join(pieces, [',']) == ports[0] + [','] + ([' '] + joined);
      CommaSpace(ports[0], joined);
    }
  }

  lemma CommaSpace(first: string, joined: string)
    ensures first + ", " + joined == first + [','] + ([' '] + joined)
  {
  }

  /** Each text behind one space. */
  function Spaced(ps: seq<string>): (r: seq<string>)
    ensures |r| == |ps|
    ensures forall i :: 0 <= i < |ps| ==> r[i] == [' '] + ps[i]
  {
    seq(|ps|, i requires 0 <= i < |ps| => [' '] + ps[i])
  }

  /** Separating by `, ` is separating by `,` with a space before each later text. */
  lemma {:induction false} JoinSpaced(ps: seq<string>)
    requires ps != []
    ensures Join(Spaced(ps), [',']) == [' '] + Join(ps, ", ")
    decreases |ps|
  {
    if |ps| > 1 {
      JoinSpaced(ps[1..]);
      assert Spaced(ps)[1..] == Spaced(ps[1..]);
    }
  }

  /** Trimming drops the space put before trimmed, non-empty texts. */
  lemma {:induction false} NonEmptyTrimmedSpaced(ps: seq<string>)
    requires forall i :: 0 <= i < |ps| ==> ps[i] != [] && IsTrimmed(ps[i])
    ensures NonEmptyTrimmed(Spaced(ps)) == ps
    decreases |ps|
  {
    if ps != [] {
      TrimAfterSpace(ps[0]);
      assert Spaced(ps)[1..] == Spaced(ps[1..]);
      NonEmptyTrimmedSpaced(ps[1..]);
      assert ps == [ps[0]] + ps[1..];
    }
  }
}
