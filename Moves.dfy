/// The move names a ship decision works with, shared by every revision of
/// the bot: the four compass moves, 'mine' (stay and collect, the action
/// None), 'convert' (turn into a shipyard), and the placeholder key 'None'
/// that mod.py keeps in its weights only to eliminate it.
module Moves {
  import opened Wrappers
  import opened Board

  datatype Key = Go(d: Dir) | Mine | Convert | Unset

  /// The string the source uses for a key.
  function Name(k: Key): string {
    match k
    case Go(d) => [Letter(d)]
    case Mine => "mine"
    case Convert => "convert"
    case Unset => "None"
  }

  /// The key a string names, if any.
  function KeyOf(s: string): Option<Key> {
    if s == "N" then Some(Go(N))
    else if s == "E" then Some(Go(E))
    else if s == "S" then Some(Go(S))
    else if s == "W" then Some(Go(W))
    else if s == "mine" then Some(Mine)
    else if s == "convert" then Some(Convert)
    else if s == "None" then Some(Unset)
    else None
  }

  /// Naming a key and reading the name back gives the key, and a string
  /// that names a key is that key's name.
  lemma KeyOfName(k: Key, s: string)
    ensures KeyOf(Name(k)) == Some(k)
    ensures KeyOf(s) == Some(k) ==> Name(k) == s
  {
  }

  /// The names of different keys differ.
  lemma NameInjective(k: Key, j: Key)
    ensures Name(k) == Name(j) <==> k == j
  {
    KeyOfName(k, Name(j));
    KeyOfName(j, Name(k));
  }

  /// movement_dictionary of mod.py and the ShipAction names: the command a
  /// decided key sends to the game; mining sends none.
  function Command(k: Key): Option<string> {
    match k
    case Go(N) => Some("NORTH")
    case Go(S) => Some("SOUTH")
    case Go(W) => Some("WEST")
    case Go(E) => Some("EAST")
    case Convert => Some("CONVERT")
    case _ => None
  }

  lemma CommandOnlyForActions(k: Key)
    ensures Command(k).None? <==> k == Mine || k == Unset
  {
  }

  /// The command names a ship can be given.
  predicate ShipCommand(s: string) {
    s == "NORTH" || s == "SOUTH" || s == "EAST" || s == "WEST" || s == "CONVERT"
  }

  /// Whatever command a key sends is one of the ship commands.
  lemma CommandIsShipCommand(k: Key)
    requires Command(k).Some?
    ensures ShipCommand(Command(k).value)
  {
    match k
    case Go(d) => {
      match d
      case N => assert Command(k).value == "NORTH";
      case S => assert Command(k).value == "SOUTH";
      case E => assert Command(k).value == "EAST";
      case W => assert Command(k).value == "WEST";
    }
    case Convert => assert Command(k).value == "CONVERT";
  }

  /// SPAWN is a shipyard's command, never a ship's.
  lemma SpawnIsNoShipCommand()
    ensures !ShipCommand("SPAWN")
  {
    assert "SPAWN"[1] != "NORTH"[1] && "SPAWN"[1] != "SOUTH"[1] && "SPAWN"[1] != "EAST"[1];
    assert "SPAWN"[1] != "WEST"[1] && "SPAWN"[1] != "CONVERT"[1];
  }
}
