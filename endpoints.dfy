/**
 * The fixed command table of the robot's REST surface: each command is a path
 * segment under `/api/`, and the table splits into commands read with GET and
 * commands issued with PUT.
 */
module Endpoints {
  import opened Options

  datatype Verb = Get | Put

  datatype Endpoint =
    // read commands
    | Status | Wear | Token | GetVolume
    // write commands
    | SetVolume | TestVolume | Start | Pause | Stop | Home | GoTo | Find | Speed | Spot

  /** The literal path segment of each command: never empty and never containing a '/'. */
  function Name(e: Endpoint): (n: string)
    ensures |n| > 0 && '/' !in n
  {
    match e
    case Status => "current_status"
    case Wear => "consumable_status"
    case Token => "token"
    case GetVolume => "get_sound_volume"
    case SetVolume => "set_sound_volume"
    case TestVolume => "test_sound_volume"
    case Start => "start_cleaning"
    case Pause => "pause_cleaning"
    case Stop => "stop_cleaning"
    case Home => "drive_home"
    case GoTo => "go_to"
    case Find => "find_robot"
    case Speed => "fanspeed"
    case Spot => "spot_clean"
  }

  /** The path segments listed as GET commands; every other command is a PUT command. */
  const GetCommandNames: set<string> := {"current_status", "consumable_status", "token", "get_sound_volume"}

  /** The verb the table assigns to a command: GET exactly for the commands listed as GET commands. */
  function VerbOf(e: Endpoint): (v: Verb)
    ensures v == Get <==> Name(e) in GetCommandNames
    ensures v == Put <==> Name(e) !in GetCommandNames
  {
    match e
    case Status | Wear | Token | GetVolume => Get
    case _ => Put
  }

  /** The command a path segment names, if any: the inverse of `Name`. */
  function Parse(segment: string): Option<Endpoint> {
    if segment == "current_status" then Some(Status)
    else if segment == "consumable_status" then Some(Wear)
    else if segment == "token" then Some(Token)
    else if segment == "get_sound_volume" then Some(GetVolume)
    else if segment == "set_sound_volume" then Some(SetVolume)
    else if segment == "test_sound_volume" then Some(TestVolume)
    else if segment == "start_cleaning" then Some(Start)
    else if segment == "pause_cleaning" then Some(Pause)
    else if segment == "stop_cleaning" then Some(Stop)
    else if segment == "drive_home" then Some(Home)
    else if segment == "go_to" then Some(GoTo)
    else if segment == "find_robot" then Some(Find)
    else if segment == "fanspeed" then Some(Speed)
    else if segment == "spot_clean" then Some(Spot)
    else None
  }

  /** Every command name reads back as that command, so the fourteen names are pairwise distinct. */
  lemma ParseName(e: Endpoint)
    ensures Parse(Name(e)) == Some(e)
  {
  }

  lemma NameInjective(e1: Endpoint, e2: Endpoint)
    ensures Name(e1) == Name(e2) ==> e1 == e2
  {
    ParseName(e1);
    ParseName(e2);
  }
}
