/** The user formatter of formatters/user.py. */
module UserFormat {
  import opened Wrappers
  import opened Strings

  /** A user record: each present key holds a string or `None` (JSON null). */
  type UserRecord = map<string, Option<string>>

  /** `User`; a display name of `None` comes from a null "username" entry. */
  datatype User = User(username: string, displayName: Option<string>, firstName: string, lastName: string)

  /** Whether `record.get(key)` is truthy. */
  predicate Truthy(record: UserRecord, key: string) {
    key in record && record[key].Some? && record[key].value != ""
  }

  /** `record.get(key) or default`: a missing key, `None` and "" all fall back. */
  function OrDefault(record: UserRecord, key: string, default: string): (r: string)
    ensures Truthy(record, key) ==> r == record[key].value
    ensures !Truthy(record, key) ==> r == default
  {
    if key in record then
      match record[key]
      case Some(s) => if s != "" then s else default
      case None => default
    else default
  }

  function FirstName(record: UserRecord): string {
    OrDefault(record, "firstName", "")
  }

  function LastName(record: UserRecord): string {
    OrDefault(record, "lastName", "")
  }

  /** `f"{first} {last}".strip() or record.get("username", "Unknown")`. */
  function DisplayName(record: UserRecord): Option<string> {
    var full := Strip(FirstName(record) + " " + LastName(record));
    if full != "" then Some(full)
    else if "username" in record then record["username"]
    else Some("Unknown")
  }

  /** `format_users`: always exactly one user. */
  function FormatUsers(record: UserRecord): (r: seq<User>)
    ensures |r| == 1
    ensures r[0].username != ""
    ensures r[0].firstName == FirstName(record) && r[0].lastName == LastName(record)
    ensures r[0].displayName == DisplayName(record)
  {
    [User(OrDefault(record, "username", "unknown"), DisplayName(record), FirstName(record), LastName(record))]
  }

  /** The username is the record's when truthy and "unknown" otherwise. */
  lemma UsernameDefault(record: UserRecord)
    ensures FormatUsers(record)[0].username == (if Truthy(record, "username") then record["username"].value else "unknown")
  {
  }

  /** Trimmed names join with one space. */
  lemma DisplayNameJoined(record: UserRecord)
    requires var f, l := FirstName(record), LastName(record);
      f != "" && l != "" && f[0] !in Whitespace && l[|l| - 1] !in Whitespace
    ensures DisplayName(record) == Some(FirstName(record) + " " + LastName(record))
  {
    var s := FirstName(record) + " " + LastName(record);
    assert s[0] == FirstName(record)[0];
    assert s[|s| - 1] == LastName(record)[|LastName(record)| - 1];
    StripTrimmed(s);
  }

  /** A lone trimmed first name is the display name. */
  lemma DisplayNameFirstOnly(record: UserRecord)
    requires var f := FirstName(record); f != "" && f[0] !in Whitespace && f[|f| - 1] !in Whitespace
    requires !Truthy(record, "lastName")
    ensures DisplayName(record) == Some(FirstName(record))
  {
    var f := FirstName(record);
    assert LastName(record) == "";
    assert f + " " + "" == f + " ";
    assert (f + " ")[..|f|] == f;
    assert RStrip(f + " ", Whitespace) == RStrip(f, Whitespace) == f;
    assert LStrip(f, Whitespace) == f;
  }

  /**
   * Names that are empty or all whitespace leave the display name to the
   * "username" entry, or "Unknown" when there is none.
   */
  lemma DisplayNameFallback(record: UserRecord)
    requires forall i :: 0 <= i < |FirstName(record) + LastName(record)| ==> (FirstName(record) + LastName(record))[i] in Whitespace
    ensures DisplayName(record) == if "username" in record then record["username"] else Some("Unknown")
  {
    var f, l := FirstName(record), LastName(record);
    var s := f + " " + l;
    forall i | 0 <= i < |s| ensures s[i] in Whitespace {
      if i < |f| {
        assert s[i] == (f + l)[i];
      } else if i > |f| {
        assert s[i] == (f + l)[i - 1];
      }
    }
    StripEmpty(s);
  }
}
