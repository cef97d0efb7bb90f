// DroneCommand.kt: the two drone commands and their one-line wire format.
module Commands {
  import opened Results
  import opened Text
  import opened Products

  /** A drone command. The source's base class has no rendering of its own, so Load
      and Deliver are the only commands there are. `site` is the warehouse id of a
      Load and the order id of a Deliver; `quantity` is the count carried. */
  datatype Command =
    | Load(drone: int, site: int, product: Product, quantity: int)
    | Deliver(drone: int, site: int, product: Product, quantity: int)

  /** CommandTag: `L` for Load, `D` for Deliver. */
  function Tag(c: Command): (t: string)
    ensures |t| == 1 && ' ' !in t
    ensures t == "L" <==> c.Load?
    ensures t == "D" <==> c.Deliver?
  {
    match c
    case Load(_, _, _, _) => "L"
    case Deliver(_, _, _, _) => "D"
  }

  /** toCommandString: `<drone> <tag> <site> <product> <quantity>`. */
  function ToCommandString(c: Command): string
  {
    IntToString(c.drone) + " " + Tag(c) + " " + IntToString(c.site) + " "
      + IntToString(c.product.id) + " " + IntToString(c.quantity)
  }

  /** The five fields of one wire line. */
  datatype WireFields = WireFields(drone: int, tag: string, site: int, product: int, quantity: int)

  /** Reads a wire line: split on single spaces, five fields, the tag L or D. */
  function ParseCommandString(line: string): Option<WireFields>
  {
    var f := Split(line, ' ');
    if |f| != 5 || (f[1] != "L" && f[1] != "D") then None
    else
      match (ParseInt(f[0]), ParseInt(f[2]), ParseInt(f[3]), ParseInt(f[4]))
      case (Some(d), Some(s), Some(p), Some(q)) => Some(WireFields(d, f[1], s, p, q))
      case _ => None
  }

  lemma NoSpaceInNumber(n: int)
    ensures ' ' !in IntToString(n)
  {
    var s := IntToString(n);
    assert forall i :: 0 <= i < |s| ==> s[i] != ' ';
  }

  /** Five pieces joined by single spaces. */
  lemma JoinFive(a: string, b: string, c: string, d: string, e: string)
    ensures Join([a, b, c, d, e], ' ') == a + " " + b + " " + c + " " + d + " " + e
  {
    var pieces := [a, b, c, d, e];
    var j4 := Join(pieces[4..], ' ');
    assert j4 == e;
    assert pieces[3..][1..] == pieces[4..];
    var j3 := Join(pieces[3..], ' ');
    assert j3 == d + " " + j4;
    assert pieces[2..][1..] == pieces[3..];
    var j2 := Join(pieces[2..], ' ');
    assert j2 == c + " " + j3;
    assert pieces[1..][1..] == pieces[2..];
    var j1 := Join(pieces[1..], ' ');
    assert j1 == b + " " + j2;
    assert Join(pieces, ' ') == a + " " + j1;
  }

  /** Splitting a rendered command on single spaces gives back its drone id, tag,
      site id, product id and quantity. */
  lemma CommandStringRoundTrip(c: Command)
    ensures ParseCommandString(ToCommandString(c))
         == Some(WireFields(c.drone, Tag(c), c.site, c.product.id, c.quantity))
  {
    var pieces := [IntToString(c.drone), Tag(c), IntToString(c.site),
                   IntToString(c.product.id), IntToString(c.quantity)];
    JoinFive(pieces[0], pieces[1], pieces[2], pieces[3], pieces[4]);
    assert pieces == [pieces[0], pieces[1], pieces[2], pieces[3], pieces[4]];
    NoSpaceInNumber(c.drone);
    NoSpaceInNumber(c.site);
    NoSpaceInNumber(c.product.id);
    NoSpaceInNumber(c.quantity);
    SplitJoin(pieces, ' ');
    IntRoundTrip(c.drone);
    IntRoundTrip(c.site);
    IntRoundTrip(c.product.id);
    IntRoundTrip(c.quantity);
  }
}
