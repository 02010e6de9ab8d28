/** The engine's process-isolation policy and how a setting string is turned into one.
    The setting is parsed the way .NET's Enum.Parse parses an enum name: the string
    is looked up in the enum's table of member names, and a string that names no
    member is an error, never a silent default. */
module ProcessModels {

  /** How the tests of a package are isolated from the host process. */
  datatype ProcessModel = Default | InProcess | Separate | Multiple

  datatype Option<T> = None | Some(value: T)

  /** The error Enum.Parse raises for a name that is not a member of the enum. */
  datatype ConfigError = UnknownProcessModel(name: string)

  datatype Result<T> = Ok(value: T) | Err(error: ConfigError)

  /** The enum's members in declaration order: the table Enum.Parse searches. */
  const ProcessModelTable: seq<ProcessModel> := [Default, InProcess, Separate, Multiple]

  /** The declared name of each member. */
  function Name(m: ProcessModel): string
  {
    match m
    case Default => "Default"
    case InProcess => "InProcess"
    case Separate => "Separate"
    case Multiple => "Multiple"
  }

  /** No two members share a name, so a name determines its member. */
  lemma NameInjective(a: ProcessModel, b: ProcessModel)
    ensures Name(a) == Name(b) <==> a == b
  {
    if a != b {
      match a
      case Default => assert Name(a)[0] == 'D';
      case InProcess => assert Name(a)[0] == 'I';
      case Separate => assert Name(a)[0] == 'S';
      case Multiple => assert Name(a)[0] == 'M';
    }
  }

  /** Every member of the enum appears in the name table. */
  lemma TableIsComplete(m: ProcessModel)
    ensures m in ProcessModelTable
  {
    match m
    case Default => assert ProcessModelTable[0] == m;
    case InProcess => assert ProcessModelTable[1] == m;
    case Separate => assert ProcessModelTable[2] == m;
    case Multiple => assert ProcessModelTable[3] == m;
  }

  /** Searches the table front to back for the member called `s`. */
  function FindByName(table: seq<ProcessModel>, s: string): (r: Option<ProcessModel>)
    ensures r.Some? ==> r.value in table && Name(r.value) == s
    ensures r.None? <==> forall m :: m in table ==> Name(m) != s
  {
    if table == [] then None
    else if Name(table[0]) == s then Some(table[0])
    else FindByName(table[1..], s)
  }

  /** Enum.Parse restricted to exact, case-sensitive member names: the named member,
      or an error that carries the rejected string. */
  function Parse(s: string): (r: Result<ProcessModel>)
    ensures r.Ok? ==> Name(r.value) == s
    ensures r.Err? ==> r.error == UnknownProcessModel(s) && forall m :: Name(m) != s
  {
    match FindByName(ProcessModelTable, s)
    case Some(m) => Ok(m)
    case None =>
      assert forall m :: Name(m) != s by {
        forall m ensures Name(m) != s {
          TableIsComplete(m);
        }
      }
      Err(UnknownProcessModel(s))
  }

  /** Parsing a member's own name yields that member. */
  lemma ParseName(m: ProcessModel)
    ensures Parse(Name(m)) == Ok(m)
  {
    var r := Parse(Name(m));
    if r.Ok? {
      NameInjective(r.value, m);
    }
  }

  /** Parsing succeeds exactly on the four member names, and a name parses to the
      member that carries it. */
  lemma ParseSucceedsExactlyOnNames(s: string, m: ProcessModel)
    ensures Parse(s) == Ok(m) <==> Name(m) == s
  {
    if Name(m) == s {
      ParseName(m);
    }
  }
}
