/** The keyword classification shared by the settings log viewer
    (`GetLogCategory`) and the event viewer (`GetEventCategory`): the lower-cased
    name is tested against five keyword groups in priority order. */
module LogCategories {
  import opened Text

  datatype Category = Plugin | Auth | Services | Network | File | Other

  /** The category's display string, which the filters switch on. */
  function Name(c: Category): string
  {
    match c
    case Plugin => "Plugin"
    case Auth => "Auth"
    case Services => "Services"
    case Network => "Network"
    case File => "File"
    case Other => "Other"
  }

  /** Priority of a category: the group tested first has rank 0. */
  function Rank(c: Category): nat
  {
    match c
    case Plugin => 0
    case Auth => 1
    case Services => 2
    case Network => 3
    case File => 4
    case Other => 5
  }

  /** The keywords of each group, lower case; `Other` has none. */
  function Keywords(c: Category): seq<string>
  {
    match c
    case Plugin => ["plugin", "ui", "window"]
    case Auth => ["auth", "login", "token"]
    case Services => ["service", "manager", "controller"]
    case Network => ["network", "connection", "signalr", "api"]
    case File => ["file", "cache", "download", "upload"]
    case Other => []
  }

  /** Some keyword of the list occurs (ordinal) in `s`. */
  predicate AnyContains(s: string, keywords: seq<string>)
  {
    exists k :: 0 <= k < |keywords| && Contains(s, keywords[k])
  }

  /** The first group, in priority order, with a keyword in the lower-cased name;
      `Other` when there is none. */
  function Classify(name: string): (r: Category)
    ensures r != Other ==> AnyContains(ToLower(name), Keywords(r))
    ensures forall c: Category :: Rank(c) < Rank(r) ==> !AnyContains(ToLower(name), Keywords(c))
  {
    var lower := ToLower(name);
    if AnyContains(lower, Keywords(Plugin)) then Plugin
    else if AnyContains(lower, Keywords(Auth)) then Auth
    else if AnyContains(lower, Keywords(Services)) then Services
    else if AnyContains(lower, Keywords(Network)) then Network
    else if AnyContains(lower, Keywords(File)) then File
    else Other
  }

  /** A name in which some keyword of `c` occurs is classified `c` or a category of
      higher priority, never one of lower priority. */
  lemma {:induction false} ClassifyAtMost(name: string, c: Category, k: nat)
    requires c != Other && k < |Keywords(c)| && Contains(ToLower(name), Keywords(c)[k])
    ensures Rank(Classify(name)) <= Rank(c)
  {
    assert AnyContains(ToLower(name), Keywords(c));
  }

  /** The six names are distinct, so switching on the name is switching on the
      category. */
  lemma {:induction false} NameInjective(a: Category, b: Category)
    requires Name(a) == Name(b)
    ensures a == b
  {
  }

  /** The classification does not depend on the case of the name. */
  lemma {:induction false} ClassifyIgnoresCase(name: string)
    ensures Classify(ToLower(name)) == Classify(name)
    ensures Classify(ToUpper(name)) == Classify(name)
  {
    ToLowerIdempotent(name);
    LowerOfUpper(name);
  }

  /** The converse of `Classify`'s contract: a category that has a keyword in
      the lower-cased name (or is `Other`) while no group of higher priority
      has one is the classification. */
  lemma {:induction false} ClassifyExactly(name: string, c: Category)
    requires c != Other ==> AnyContains(ToLower(name), Keywords(c))
    requires forall d: Category :: Rank(d) < Rank(c) ==> !AnyContains(ToLower(name), Keywords(d))
    ensures Classify(name) == c
  {
    var r := Classify(name);
    if Rank(r) < Rank(c) {
      assert !AnyContains(ToLower(name), Keywords(r));
    }
  }
}
