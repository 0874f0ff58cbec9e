/**
 * How a Fit client tells the engine where to connect: the fixed ticket
 * and the launch arguments host, port and ticket, either as one command
 * line (a separate process) or as an argument vector (in-process mode).
 * The host name is a parameter: looking it up is not modelled.
 */
module FitLaunch {
  import opened Wrappers
  import Text

  /** generateTicketNumber: the same ticket for every client. */
  function GenerateTicketNumber(): (ticket: int)
    ensures ticket == 3863
    ensures Text.Decimal(ticket) == "3863"
  {
    var t := 0xF17;
    assert Text.NaturalDigits(3) == "3";
    assert Text.NaturalDigits(38) == "38";
    assert Text.NaturalDigits(386) == "386";
    t
  }

  /**
   * The arguments appended to the command: host, port and ticket separated
   * by single spaces.  Whatever the host holds, port and ticket are the last
   * two fields.
   */
  function FitArguments(host: string, port: int, ticketNumber: int): (arguments: string)
    ensures Text.Split(arguments) == Text.Split(host) + [Text.Decimal(port), Text.Decimal(ticketNumber)]
  {
    Text.SplitAtSpace(host + " " + Text.Decimal(port), Text.Decimal(ticketNumber));
    Text.SplitAtSpace(host, Text.Decimal(port));
    Text.SplitWithoutSpace(Text.Decimal(port));
    Text.SplitWithoutSpace(Text.Decimal(ticketNumber));
    host + " " + Text.Decimal(port) + " " + Text.Decimal(ticketNumber)
  }

  /** makeCommandRunner: the command line of the engine process, the command's fields followed by the arguments'. */
  function CommandLine(command: string, host: string, port: int, ticketNumber: int): (line: string)
    ensures Text.Split(line) == Text.Split(command) + Text.Split(host) + [Text.Decimal(port), Text.Decimal(ticketNumber)]
  {
    Text.SplitAtSpace(command, FitArguments(host, port, ticketNumber));
    command + " " + FitArguments(host, port, ticketNumber)
  }

  /**
   * InProcessCommandRunner.start: the argument vector handed to the entry
   * point, four entries: the fast-mode flag, the host, then port and ticket,
   * which parse back to their values.
   */
  function InProcessArguments(host: string, port: int, ticketNumber: int): (arguments: seq<string>)
    ensures |arguments| == 4 && arguments[0] == "-x" && arguments[1] == host
    ensures Text.ParseDecimal(arguments[2]) == Some(port) && Text.ParseDecimal(arguments[3]) == Some(ticketNumber)
  {
    Text.DecimalRoundTrip(port);
    Text.DecimalRoundTrip(ticketNumber);
    ["-x", host, Text.Decimal(port), Text.Decimal(ticketNumber)]
  }

  /** For a host without spaces, the launch arguments split into exactly three fields: host, port, ticket. */
  lemma FitArgumentsFields(host: string, port: int, ticketNumber: int)
    requires ' ' !in host
    ensures Text.Split(FitArguments(host, port, ticketNumber)) == [host, Text.Decimal(port), Text.Decimal(ticketNumber)]
  {
    Text.SplitWithoutSpace(host);
  }

  /**
   * The command line is the command's own fields followed by exactly three
   * more, in the order host, port, ticket, whatever spaces the command holds.
   */
  lemma CommandLineFields(command: string, host: string, port: int, ticketNumber: int)
    requires ' ' !in host
    ensures Text.Split(CommandLine(command, host, port, ticketNumber))
         == Text.Split(command) + [host, Text.Decimal(port), Text.Decimal(ticketNumber)]
  {
    Text.SplitWithoutSpace(host);
  }

  /** The engine recovers host, port and ticket from the last three fields of its command line. */
  lemma CommandLineRoundTrip(command: string, host: string, port: int, ticketNumber: int)
    requires ' ' !in host
    ensures var fields := Text.Split(CommandLine(command, host, port, ticketNumber));
            var n := |fields|;
            n >= 4 && fields[n - 3] == host
            && Text.ParseDecimal(fields[n - 2]) == Some(port)
            && Text.ParseDecimal(fields[n - 1]) == Some(ticketNumber)
  {
    CommandLineFields(command, host, port, ticketNumber);
    Text.DecimalRoundTrip(port);
    Text.DecimalRoundTrip(ticketNumber);
  }

  /** Both launch modes pass the same triple: the in-process vector is "-x" and the fields of the arguments. */
  lemma SameTripleInBothModes(host: string, port: int, ticketNumber: int)
    requires ' ' !in host
    ensures InProcessArguments(host, port, ticketNumber) == ["-x"] + Text.Split(FitArguments(host, port, ticketNumber))
  {
    FitArgumentsFields(host, port, ticketNumber);
  }
}
