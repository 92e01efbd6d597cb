/**
 * The Postgres side of the ETL: the base extractor that runs statements,
 * rolling back and swallowing integrity violations, and the placeholder
 * template used to insert rows in bulk.
 */
module ExtractorBase {
  import opened Wrappers

  /** What the database does with one statement. */
  datatype StatementOutcome = Executed | IntegrityViolation(description: string) | OtherFailure(description: string)

  /** What `execute` hands back to its caller: a normal return, or the exception it lets through. */
  datatype ExecuteResult = Returned | Raised(description: string)

  /** One `logger.error` record: the table name and the error description. */
  datatype ErrorRecord = ErrorRecord(tableName: string, description: string)

  class Connection {
    /** Number of `rollback()` calls made on the connection. */
    var rollbacks: nat

    constructor ()
      ensures rollbacks == 0
    {
      rollbacks := 0;
    }
  }

  /** The module-level logger's error records. */
  class Logger {
    var errors: seq<ErrorRecord>

    constructor ()
      ensures errors == []
    {
      errors := [];
    }
  }

  class BaseExtractor {
    const connection: Connection
    var tableName: string

    /** Keeps the connection; subclasses set the table name. */
    constructor (connection: Connection)
      ensures this.connection == connection && tableName == ""
    {
      this.connection := connection;
      tableName := "";
    }

    /**
     * Runs one statement. An integrity violation rolls the connection back,
     * is logged with this extractor's table name and is not re-raised; any
     * other failure propagates unchanged and touches nothing.
     */
    method Execute(outcome: StatementOutcome, logger: Logger) returns (r: ExecuteResult)
      modifies connection, logger
      ensures r.Raised? <==> outcome.OtherFailure?
      ensures outcome.OtherFailure? ==> r.description == outcome.description
      ensures outcome.IntegrityViolation? ==>
        connection.rollbacks == old(connection.rollbacks) + 1 &&
        logger.errors == old(logger.errors) + [ErrorRecord(tableName, outcome.description)]
      ensures !outcome.IntegrityViolation? ==>
        connection.rollbacks == old(connection.rollbacks) && logger.errors == old(logger.errors)
    {
      match outcome {
        case Executed =>
          r := Returned;
        case IntegrityViolation(description) =>
          connection.rollbacks := connection.rollbacks + 1;
          logger.errors := logger.errors + [ErrorRecord(tableName, description)];
          r := Returned;
        case OtherFailure(description) =>
          r := Raised(description);
      }
    }
  }

  /** `n` copies of `x`. */
  function Repeat(x: string, n: nat): seq<string>
  {
    if n == 0 then [] else [x] + Repeat(x, n - 1)
  }

  /** `sep.join(parts)`. */
  function Join(parts: seq<string>, sep: string): string
  {
    if parts == [] then "" else if |parts| == 1 then parts[0] else parts[0] + sep + Join(parts[1..], sep)
  }

  /** The template `set_values_sql_format` hands to `mogrify`: one `%s` per value, comma separated, in parentheses. */
  function ValuesTemplate(count: nat): (t: string)
    ensures |t| == if count == 0 then 2 else 4 * count
    ensures t[0] == '(' && t[|t| - 1] == ')'
    ensures count == 0 <==> t == "()"
  {
    JoinPlaceholdersLength(count);
    "(" + Join(Repeat("%s", count), ", ") + ")"
  }

  lemma {:induction false} JoinPlaceholdersLength(count: nat)
    ensures |Join(Repeat("%s", count), ", ")| == if count == 0 then 0 else 4 * count - 2
  {
    if count > 1 {
      assert Repeat("%s", count)[1..] == Repeat("%s", count - 1);
      JoinPlaceholdersLength(count - 1);
    }
  }

  /** Independent reading of a placeholder list `%s, %s, ..., %s` (at least one): how many there are. */
  function ParsePlaceholders(s: string): Option<nat>
    decreases |s|
  {
    if s == "%s" then Some(1)
    else if |s| > 4 && s[..4] == "%s, " then
      match ParsePlaceholders(s[4..])
      case None => None
      case Some(k) => Some(k + 1)
    else None
  }

  /** Independent reading of a values template: the number of placeholders, or None if it is not one. */
  function ParseTemplate(t: string): Option<nat>
  {
    if |t| < 2 || t[0] != '(' || t[|t| - 1] != ')' then None
    else if t == "()" then Some(0)
    else ParsePlaceholders(t[1..|t| - 1])
  }

  lemma {:induction false} PlaceholdersRoundTrip(count: nat)
    requires count >= 1
    ensures ParsePlaceholders(Join(Repeat("%s", count), ", ")) == Some(count)
  {
    if count > 1 {
      var s := Join(Repeat("%s", count), ", ");
      assert Repeat("%s", count)[1..] == Repeat("%s", count - 1);
      var rest := Join(Repeat("%s", count - 1), ", ");
      assert s == "%s, " + rest;
      assert s[..4] == "%s, " && s[4..] == rest;
      PlaceholdersRoundTrip(count - 1);
    }
  }

  lemma {:induction false} PlaceholdersSound(s: string, count: nat)
    requires ParsePlaceholders(s) == Some(count)
    ensures count >= 1 && s == Join(Repeat("%s", count), ", ")
    decreases |s|
  {
    if s != "%s" {
      PlaceholdersSound(s[4..], count - 1);
      assert Repeat("%s", count)[1..] == Repeat("%s", count - 1);
      assert s == s[..4] + s[4..];
    }
  }

  /** Reading the template back gives the number of values it was built for. */
  lemma TemplateRoundTrip(count: nat)
    ensures ParseTemplate(ValuesTemplate(count)) == Some(count)
  {
    var t := ValuesTemplate(count);
    if count > 0 {
      var inner := Join(Repeat("%s", count), ", ");
      assert t[1..|t| - 1] == inner;
      PlaceholdersRoundTrip(count);
    }
  }

  /** Every string that reads as a template for `count` values is exactly the template built for `count`. */
  lemma TemplateSound(t: string, count: nat)
    requires ParseTemplate(t) == Some(count)
    ensures t == ValuesTemplate(count)
  {
    if t != "()" {
      assert |t| >= 2 && t[0] == '(' && t[|t| - 1] == ')';
      var inner := t[1..|t| - 1];
      assert t[..1] == "(" && t[|t| - 1..] == ")";
      assert t == t[..1] + inner + t[|t| - 1..];
      PlaceholdersSound(inner, count);
      assert ValuesTemplate(count) == "(" + Join(Repeat("%s", count), ", ") + ")";
    }
  }
}
