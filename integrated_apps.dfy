/**
 * The rules of static/js/integrated_apps.js: the search filter over the
 * integration items, the app-details lookup, and `showAlert`'s single-alert
 * rule with its colours.
 */
module IntegratedApps {
  import opened Wrappers
  import opened Text

  // ----- Search -----

  /** An `.integration-item`: the text of its `h3` and of its `p`. */
  datatype Item = Item(title: string, description: string)

  /** An item's `style.display`: not yet set by the script, `flex` or `none`. */
  datatype Display = Unset | Flex | Hidden

  /** The query of one input event: `value.toLowerCase().trim()`. */
  function SearchTerm(value: string): string {
    Trim(ToLower(value))
  }

  /** An item stays visible when its lower-cased title or description contains the term. */
  predicate Matches(item: Item, term: string) {
    Contains(ToLower(item.title), term) || Contains(ToLower(item.description), term)
  }

  /** The display every item gets from one pass of the input handler. */
  function FilterDisplay(items: seq<Item>, value: string): (r: seq<Display>)
    ensures |r| == |items|
    ensures forall i :: 0 <= i < |items| ==> (r[i] == Flex <==> Matches(items[i], SearchTerm(value)))
    ensures forall i :: 0 <= i < |items| ==> r[i] != Unset
  {
    seq(|items|, i requires 0 <= i < |items| => if Matches(items[i], SearchTerm(value)) then Flex else Hidden)
  }

  lemma LowerOfSpaces(value: string)
    requires AllSpace(value)
    ensures AllSpace(ToLower(value))
  {
    ToLowerKeepsSpace(value);
  }

  /** An empty or whitespace-only query shows every item. */
  lemma BlankQueryShowsAll(items: seq<Item>, value: string)
    requires AllSpace(value)
    ensures forall i :: 0 <= i < |items| ==> FilterDisplay(items, value)[i] == Flex
  {
    LowerOfSpaces(value);
    assert SearchTerm(value) == "";
    forall i | 0 <= i < |items| ensures Matches(items[i], "") {
      ContainsEmpty(ToLower(items[i].title));
    }
  }

  /** The search box and the item list `initializeSearch` captured once. */
  class SearchPanel {
    const items: seq<Item>
    var display: seq<Display>

    /** One display per captured item. */
    predicate Valid()
      reads this
    {
      |display| == |items|
    }

    /** `initializeSearch`: captures the items present at load time; none is styled yet. */
    constructor (items: seq<Item>)
      ensures Valid() && this.items == items
      ensures forall i :: 0 <= i < |display| ==> display[i] == Unset
    {
      this.items := items;
      display := seq(|items|, _ => Unset);
    }

    /**
     * The input listener: reassigns the display of every captured item, so
     * the outcome depends on the current query only and repeating a query
     * changes nothing.
     */
    method OnInput(value: string)
      requires Valid()
      modifies this
      ensures Valid()
      ensures display == FilterDisplay(items, value)
    {
      var term := Trim(ToLower(value));
      var i := 0;
      while i < |items|
        invariant 0 <= i <= |items| && |display| == |items|
        invariant forall j :: 0 <= j < i ==> display[j] == FilterDisplay(items, value)[j]
      {
        var item := items[i];
        var appName := ToLower(item.title);
        var description := ToLower(item.description);
        if Contains(appName, term) || Contains(description, term) {
          display := display[i := Flex];
        } else {
          display := display[i := Hidden];
        }
        i := i + 1;
      }
    }
  }

  // ----- App details -----

  datatype AppDetails = AppDetails(description: string, features: Option<seq<string>>, status: string)

  /** The six entries of `getAppDetails`'s table. */
  const AppTable: map<string, AppDetails> := map[
    "webhook" := AppDetails("Send data to external services via HTTP requests",
      Some(["Real-time data transmission", "Custom endpoints", "Secure authentication"]), "Connected"),
    "n8n" := AppDetails("Workflow automation and data processing",
      Some(["Visual workflow builder", "Node-based automation", "Multi-service integration"]), "Connected"),
    "google-drive" := AppDetails("Store and manage files in the cloud",
      Some(["File storage", "Document management", "Collaborative editing"]), "Connected"),
    "google-sheets" := AppDetails("Export data to spreadsheets for analysis",
      Some(["Data export", "Real-time updates", "Formula support"]), "Connected"),
    "airtable" := AppDetails("Organize data in flexible databases",
      Some(["Database management", "Custom fields", "API integration"]), "Connected"),
    "teams" := AppDetails("Send notifications and updates to teams",
      Some(["Team notifications", "Channel integration", "Message formatting"]), "Connected")
  ]

  const Fallback := AppDetails("App details not available", None, "Connected")

  /** The property names every object literal inherits from `Object.prototype`. */
  const ObjectPrototypeMembers: set<string> := {
    "constructor", "__proto__", "toString", "toLocaleString", "valueOf", "hasOwnProperty",
    "isPrototypeOf", "propertyIsEnumerable", "__defineGetter__", "__defineSetter__",
    "__lookupGetter__", "__lookupSetter__"
  }

  /** The key a property read uses: `getAttribute` gives null for a missing attribute, read as "null". */
  function PropertyKey(appType: Option<string>): string {
    appType.GetOr("null")
  }

  /** What `appDetails[appType] || fallback` yields: a table entry, or an inherited member (truthy). */
  datatype Lookup = Entry(details: AppDetails) | PrototypeMember(name: string)

  /**
   * `getAppDetails` as written: the bracket read also finds the members
   * inherited from `Object.prototype`, which are truthy, so the fallback is
   * skipped for them.
   */
  function GetAppDetailsAsWritten(appName: string, appType: Option<string>): (r: Lookup)
    ensures PropertyKey(appType) in AppTable ==> r == Entry(AppTable[PropertyKey(appType)])
    ensures PropertyKey(appType) in ObjectPrototypeMembers ==> r == PrototypeMember(PropertyKey(appType))
    ensures PropertyKey(appType) !in AppTable && PropertyKey(appType) !in ObjectPrototypeMembers ==> r == Entry(Fallback)
  {
    var key := PropertyKey(appType);
    if key in AppTable then Entry(AppTable[key])
    else if key in ObjectPrototypeMembers then PrototypeMember(key)
    else Entry(Fallback)
  }

  /** The app type `constructor` gets the `Object` function, which has no `status`. */
  lemma AsWrittenConstructorSkipsFallback()
    ensures GetAppDetailsAsWritten("Webhook", Some("constructor")) == PrototypeMember("constructor")
    ensures !GetAppDetailsAsWritten("Webhook", Some("constructor")).Entry?
  {
    assert "constructor" !in AppTable;
  }

  /**
   * `getAppDetails` as intended: the table entry for the six known types,
   * the fallback for any other; every result is `Connected`.
   */
  function GetAppDetails(appName: string, appType: Option<string>): (r: AppDetails)
    ensures r.status == "Connected"
    ensures PropertyKey(appType) in AppTable ==> r == AppTable[PropertyKey(appType)]
    ensures PropertyKey(appType) !in AppTable ==> r == Fallback
    ensures r.features.None? <==> PropertyKey(appType) !in AppTable
  {
    var key := PropertyKey(appType);
    if key in AppTable then AppTable[key] else Fallback
  }

  /** The two agree on every app type that is not an `Object.prototype` member. */
  lemma GetAppDetailsAgrees(appName: string, appType: Option<string>)
    requires PropertyKey(appType) !in ObjectPrototypeMembers
    ensures GetAppDetailsAsWritten(appName, appType) == Entry(GetAppDetails(appName, appType))
  {
  }

  // ----- Alerts -----

  /** The inline colours `showAlert` sets: background, and text colour. */
  datatype AlertStyle = AlertStyle(background: string, color: string)

  /** The background per alert type; only a warning gets dark text. */
  function StyleFor(kind: string): (r: AlertStyle)
    ensures kind == "success" ==> r.background == "#28a745"
    ensures kind == "error" ==> r.background == "#dc3545"
    ensures kind == "warning" ==> r.background == "#ffc107"
    ensures kind != "success" && kind != "error" && kind != "warning" ==> r.background == "#667eea"
    ensures r.color == "#333" <==> kind == "warning"
    ensures kind != "warning" ==> r.color == "white"
  {
    match kind
    case "success" => AlertStyle("#28a745", "white")
    case "error" => AlertStyle("#dc3545", "white")
    case "warning" => AlertStyle("#ffc107", "#333")
    case _ => AlertStyle("#667eea", "white")
  }

  /** A node of the document: an element with class `alert`, or anything else. */
  datatype Node = AlertNode(message: string, kind: string, style: AlertStyle) | OtherNode(id: nat)

  /** The nodes with every `.alert` removed, in order. */
  function WithoutAlerts(nodes: seq<Node>): (r: seq<Node>)
    ensures forall n :: n in r ==> n in nodes && !n.AlertNode?
    ensures forall n :: n in nodes && !n.AlertNode? ==> n in r
  {
    if nodes == [] then []
    else
      var last := nodes[|nodes| - 1];
      WithoutAlerts(nodes[..|nodes| - 1]) + (if last.AlertNode? then [] else [last])
  }

  function AlertCount(nodes: seq<Node>): nat {
    if nodes == [] then 0
    else AlertCount(nodes[..|nodes| - 1]) + (if nodes[|nodes| - 1].AlertNode? then 1 else 0)
  }

  lemma {:induction false} NoAlertsLeft(nodes: seq<Node>)
    ensures AlertCount(WithoutAlerts(nodes)) == 0
  {
    if nodes != [] {
      var init := nodes[..|nodes| - 1];
      var last := nodes[|nodes| - 1];
      NoAlertsLeft(init);
      var w := WithoutAlerts(init);
      if !last.AlertNode? {
        assert (w + [last])[..|w|] == w;
      } else {
        assert WithoutAlerts(nodes) == w + [] == w;
      }
    }
  }

  /** After `showAlert`, exactly one `.alert` exists: the new one, appended last. */
  lemma ExactlyOneAlert(nodes: seq<Node>, a: Node)
    requires a.AlertNode?
    ensures AlertCount(WithoutAlerts(nodes) + [a]) == 1
  {
    NoAlertsLeft(nodes);
    var w := WithoutAlerts(nodes);
    assert (w + [a])[..|w|] == w;
  }

  /** The document body `showAlert` appends to. */
  class Document {
    var nodes: seq<Node>

    constructor (nodes: seq<Node>)
      ensures this.nodes == nodes
    {
      this.nodes := nodes;
    }

    /**
     * `showAlert(message, type = 'info')`: removes every existing `.alert`,
     * then appends one styled for its type.
     */
    method ShowAlert(message: string, kind: Option<string>)
      modifies this
      ensures nodes == WithoutAlerts(old(nodes)) + [AlertNode(message, kind.GetOr("info"), StyleFor(kind.GetOr("info")))]
      ensures AlertCount(nodes) == 1
    {
      var existing := nodes;
      var kept: seq<Node> := [];
      var i := 0;
      while i < |existing|
        invariant 0 <= i <= |existing|
        invariant kept == WithoutAlerts(existing[..i])
      {
        if !existing[i].AlertNode? {
          kept := kept + [existing[i]];
        }
        assert existing[..i + 1][..i] == existing[..i];
        i := i + 1;
      }
      assert existing[..i] == existing;
      var t := kind.GetOr("info");
      var alert := AlertNode(message, t, StyleFor(t));
      nodes := kept + [alert];
      ExactlyOneAlert(existing, alert);
    }
  }
}
