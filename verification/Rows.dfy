/** How wide the rows of the host and credential lists are
    (`src/tui/launcher.rs`, `src/tui/cred_panel.rs`). */
module Rows {
  import opened Prelude
  import opened Fit
  import opened Config
  import H = Highlight

  function Digits(n: nat): (s: string)
    ensures forall k | 0 <= k < |s| :: '0' <= s[k] <= '9'
  {
    if n < 10 then [('0' as int + n) as char] else Digits(n / 10) + [('0' as int + n % 10) as char]
  }

  function Spaces(n: nat): (s: string)
    ensures |s| == n && forall k | 0 <= k < n :: s[k] == ' '
  {
    seq(n, _ => ' ')
  }

  function Marker(selected: bool): string {
    if selected then [MARKER] + " " else "  "
  }

  function PortSuffix(port: nat): string {
    if port == 22 then "" else ":" + Digits(port)
  }

  function FullAddress(user: string, host: string, port: nat): string {
    user + "@" + host + PortSuffix(port)
  }

  function AddressWidth(w: Widths, user: string, host: string, port: nat): nat {
    Cells(w, user) + 1 + Cells(w, host) + (if port == 22 then 0 else Cells(w, PortSuffix(port)))
  }

  /** `format_address`: keep `user@` and the port, shorten the host; when not even
      those fit, shorten the whole. */
  function FormatAddress(w: Widths, user: string, host: string, port: nat, avail: nat): string {
    var full := FullAddress(user, host, port);
    var overhead := Cells(w, user) + 1 + Cells(w, PortSuffix(port));
    if Cells(w, full) <= avail then full
    else if avail <= overhead then Truncate(w, full, avail)
    else user + "@" + Truncate(w, host, avail - overhead) + PortSuffix(port)
  }

  function Padded(w: Widths, s: string, width: nat): string {
    Truncate(w, s, width) + Spaces(Monus(width, Cells(w, Truncate(w, s, width))))
  }

  // ---- widths of the pieces ----

  lemma {:induction false} AsciiCells(w: Widths, s: string)
    requires Sane(w) && forall k | 0 <= k < |s| :: ' ' <= s[k] <= '~'
    ensures Cells(w, s) == |s|
  {
    if s != "" {
      AsciiCells(w, s[1..]);
    }
  }

  lemma PaddedFills(w: Widths, s: string, width: nat)
    requires Sane(w)
    ensures Cells(w, Padded(w, s, width)) == width
  {
    TruncateIsOptimal(w, s, width);
    var t := Truncate(w, s, width);
    AsciiCells(w, Spaces(width - Cells(w, t)));
    CellsConcat(w, t, Spaces(width - Cells(w, t)));
  }

  lemma MarkerCells(w: Widths, selected: bool)
    requires Sane(w)
    ensures Cells(w, Marker(selected)) == 2
  {
    if selected {
      assert Marker(true) == [MARKER, ' '] && Marker(true)[1..] == [' '] && Marker(true)[1..][1..] == "";
    } else {
      assert Marker(false)[1..] == [' '] && Marker(false)[1..][1..] == "";
    }
  }

  lemma AddressCells(w: Widths, user: string, host: string, port: nat)
    requires Sane(w)
    ensures Cells(w, user + "@" + host + PortSuffix(port)) == AddressWidth(w, user, host, port)
  {
    assert "@"[1..] == "";
    CellsConcat(w, user, "@");
    CellsConcat(w, user + "@", host);
    CellsConcat(w, user + "@" + host, PortSuffix(port));
  }

  lemma AddressKeepsEnds(user: string, host: string, suffix: string)
    ensures var a := user + "@" + host + suffix;
            user + "@" <= a && |a| >= |suffix| && a[|a| - |suffix|..] == suffix
  {
  }

  /** The formatted address fits its column; it is the full address when that
      fits, and otherwise still starts with `user@` and ends with the port as
      long as those leave a cell for the host. */
  lemma FormatAddressFits(w: Widths, user: string, host: string, port: nat, avail: nat)
    requires Sane(w)
    ensures var a := FormatAddress(w, user, host, port, avail);
            && Cells(w, a) <= avail
            && (AddressWidth(w, user, host, port) <= avail ==> a == FullAddress(user, host, port))
            && (Cells(w, user) + 1 + Cells(w, PortSuffix(port)) < avail ==>
                  && user + "@" <= a
                  && |a| >= |PortSuffix(port)| && a[|a| - |PortSuffix(port)|..] == PortSuffix(port))
  {
    AddressCells(w, user, host, port);
    AddressKeepsEnds(user, host, PortSuffix(port));
    var overhead := Cells(w, user) + 1 + Cells(w, PortSuffix(port));
    if AddressWidth(w, user, host, port) > avail {
      if avail <= overhead {
        TruncateIsOptimal(w, FullAddress(user, host, port), avail);
      } else {
        TruncateIsOptimal(w, host, avail - overhead);
        AddressCells(w, user, Truncate(w, host, avail - overhead), port);
        AddressKeepsEnds(user, Truncate(w, host, avail - overhead), PortSuffix(port));
      }
    }
  }

  /** When the whole address does not fit but user and port leave room, the host
      alone gives way, from its end: the longest beginning that leaves a cell for
      the ellipsis. */
  lemma FormatAddressCutsHost(w: Widths, user: string, host: string, port: nat, avail: nat)
    requires Sane(w)
    requires AddressWidth(w, user, host, port) > avail && Cells(w, user) + 1 + Cells(w, PortSuffix(port)) < avail
    ensures var room := avail - Cells(w, user) - 1 - Cells(w, PortSuffix(port));
            exists k | 0 <= k < |host| ::
              && LongestPrefix(w, host, k, room - 1)
              && FormatAddress(w, user, host, port, avail) == user + "@" + (host[..k] + [ELLIPSIS]) + PortSuffix(port)
  {
    hide Cells, Truncate, LongestPrefix;
    AddressCells(w, user, host, port);
    WidthsAdd(w, user, host, port);
    TruncateIsOptimal(w, host, avail - (Cells(w, user) + 1 + Cells(w, PortSuffix(port))));
  }

  lemma WidthsAdd(w: Widths, user: string, host: string, port: nat)
    ensures AddressWidth(w, user, host, port) == Cells(w, user) + 1 + Cells(w, host) + Cells(w, PortSuffix(port))
  {
  }

  /** The port is written unless it is the usual one. */
  lemma PortIsWritten(port: nat)
    ensures port == 22 ==> PortSuffix(port) == ""
    ensures port != 22 ==> PortSuffix(port) == ":" + Digits(port) && Number(Digits(port)) == port
  {
    DigitsAreTheNumber(port);
  }

  /** The number a string of digits stands for. */
  function Number(s: string): int {
    if s == "" then 0 else 10 * Number(s[..|s| - 1]) + (s[|s| - 1] as int - '0' as int)
  }

  lemma {:induction false} DigitsAreTheNumber(n: nat)
    ensures Number(Digits(n)) == n
  {
    var d := Digits(n);
    if n < 10 {
      assert d[..0] == "" && Number("") == 0;
    } else {
      DigitsAreTheNumber(n / 10);
      assert d[..|d| - 1] == Digits(n / 10);
    }
  }

  // ---- one row ----

  /** The text of a host row up to its address. */
  function HostRowLead(w: Widths, name: string, selected: bool, nameW: nat): string {
    Marker(selected) + Padded(w, name, nameW) + "  "
  }

  /** `host_line`: its spans show the lead, then the formatted address. */
  method HostLine(w: Widths, find: H.Finder, host: Host, query: string, creds: seq<Credential>,
                  selected: bool, nameW: nat, addrW: nat) returns (spans: seq<H.Span>)
    ensures H.Text(spans) == HostRowLead(w, host.name, selected, nameW)
                             + FormatAddress(w, HostUser(host, creds), host.host, host.port, addrW)
  {
    hide Truncate, Cells, FormatAddress, Marker, H.Text;
    EmptyText();
    spans := Push([], Marker(selected));
    spans := PushColumn(w, find, host.name, query, nameW, spans);
    spans := Push(spans, "  ");
    var addr := FormatAddress(w, HostUser(host, creds), host.host, host.port, addrW);
    var addrSpans := H.HighlightedSpans(find, addr, query);
    H.TextConcat(spans, addrSpans);
    spans := spans + addrSpans;
  }

  function KindLabel(kind: SecretKind): (s: string)
    ensures |s| <= 8 && forall k | 0 <= k < |s| :: ' ' <= s[k] <= '~'
  {
    match kind
    case PasswordSecret => "password"
    case KeyringSecret => "password"
    case KeySecret => "identity"
    case NoSecret => "none"
  }

  /** The label of a credential names its secret: a password, also in the keyring,
      a key, or none. */
  lemma KindIsNamed(body: Body)
    ensures KindLabel(KindOf(body)) == "password"
            <==> body.keyring || (body.key.None? && body.password.Some?)
    ensures KindLabel(KindOf(body)) == "identity" <==> !body.keyring && body.key.Some?
    ensures KindLabel(KindOf(body)) == "none" <==> !body.keyring && body.key.None? && body.password.None?
  {
    assert "password"[0] == 'p' && "identity"[0] == 'i' && "none"[0] == 'n';
  }

  function CredRowText(w: Widths, cred: Credential, selected: bool, nameW: nat, userW: nat, width: nat): string {
    var kind := "  " + KindLabel(KindOf(cred.body));
    Marker(selected) + Padded(w, cred.name, nameW) + "  " + Padded(w, cred.body.user, userW)
    + Spaces(Monus(width, 2 + nameW + 2 + userW + |kind|)) + kind
  }

  /** A row whose name and user fit shows them whole, each from the start of its
      column, and ends in the kind of secret. */
  lemma CredRowShowsFields(w: Widths, cred: Credential, selected: bool, nameW: nat, userW: nat, width: nat)
    requires 0 < nameW && 0 < userW && Cells(w, cred.name) <= nameW && Cells(w, cred.body.user) <= userW
    ensures CredRowText(w, cred, selected, nameW, userW, width)
            == (if selected then [MARKER, ' '] else "  ")
               + cred.name + Spaces(nameW - Cells(w, cred.name)) + "  "
               + cred.body.user + Spaces(userW - Cells(w, cred.body.user))
               + Spaces(CredFill(cred, nameW, userW, width)) + "  " + KindLabel(KindOf(cred.body))
  {
    hide Cells, KindOf, KindLabel, Spaces, Truncate;
    var name, user, kind := cred.name, cred.body.user, KindLabel(KindOf(cred.body));
    assert Truncate(w, name, nameW) == name && Truncate(w, user, userW) == user by {
      FittingIsUncut(w, name, nameW);
      FittingIsUncut(w, user, userW);
    }
    MarkerIs(selected);
    Regroup(Marker(selected), name, Spaces(nameW - Cells(w, name)), user, Spaces(userW - Cells(w, user)),
            Spaces(CredFill(cred, nameW, userW, width)), kind);
  }

  /** What is left of the row before the kind at its end. */
  function CredFill(cred: Credential, nameW: nat, userW: nat, width: nat): nat {
    Monus(width, 2 + nameW + 2 + userW + |"  " + KindLabel(KindOf(cred.body))|)
  }

  lemma FittingIsUncut(w: Widths, s: string, width: nat)
    requires width > 0 && Cells(w, s) <= width
    ensures Truncate(w, s, width) == s
  {
  }

  lemma MarkerIs(selected: bool)
    ensures Marker(selected) == if selected then [MARKER, ' '] else "  "
  {
    assert [MARKER] + " " == [MARKER, ' '];
  }

  lemma Regroup(m: string, name: string, a: string, user: string, b: string, fill: string, kind: string)
    ensures m + (name + a) + "  " + (user + b) + fill + ("  " + kind)
            == m + name + a + "  " + user + b + fill + "  " + kind
  {
  }

  /** `cred_row`: marker, name, user and right-aligned kind. */
  method CredRow(w: Widths, find: H.Finder, cred: Credential, query: string, selected: bool,
                 nameW: nat, userW: nat, width: nat) returns (spans: seq<H.Span>)
    ensures H.Text(spans) == CredRowText(w, cred, selected, nameW, userW, width)
  {
    hide Truncate, Cells, KindLabel, Marker, H.Text;
    spans := Push([], Marker(selected));
    assert H.Text([]) == "" by { EmptyText(); }
    spans := PushColumn(w, find, cred.name, query, nameW, spans);
    spans := Push(spans, "  ");
    spans := PushColumn(w, find, cred.body.user, query, userW, spans);
    var kind := "  " + KindLabel(KindOf(cred.body));
    spans := Push(spans, Spaces(Monus(width, 2 + nameW + 2 + userW + |kind|)));
    spans := Push(spans, kind);
  }

  lemma EmptyText()
    ensures H.Text([]) == ""
  {
  }

  /** Truncate, highlight and pad one column. */
  method PushColumn(w: Widths, find: H.Finder, s: string, query: string, width: nat, spans: seq<H.Span>)
    returns (r: seq<H.Span>)
    ensures H.Text(r) == H.Text(spans) + Padded(w, s, width)
  {
    var shown := TruncateCells(w, s, width);
    var column := H.HighlightedSpans(find, shown, query);
    H.TextConcat(spans, column);
    r := Push(spans + column, Spaces(Monus(width, Cells(w, shown))));
  }

  method Push(spans: seq<H.Span>, text: string) returns (r: seq<H.Span>)
    ensures H.Text(r) == H.Text(spans) + text
  {
    H.ShownPush(spans, H.Span(text, false));
    r := spans + [H.Span(text, false)];
  }

  // ---- the list ----

  function Max(a: nat, b: nat): nat {
    if a < b then b else a
  }

  function NameNeed(w: Widths, hosts: seq<Host>): (r: nat)
    ensures forall k | 0 <= k < |hosts| :: Cells(w, hosts[k].name) <= r
  {
    if hosts == [] then 0
    else
      assert forall k | 0 < k < |hosts| :: hosts[k] == hosts[1..][k - 1];
      Max(Cells(w, hosts[0].name), NameNeed(w, hosts[1..]))
  }

  function AddressNeed(w: Widths, hosts: seq<Host>, creds: seq<Credential>): (r: nat)
    ensures forall k | 0 <= k < |hosts| ::
              AddressWidth(w, HostUser(hosts[k], creds), hosts[k].host, hosts[k].port) <= r
  {
    if hosts == [] then 0
    else
      assert forall k | 0 < k < |hosts| :: hosts[k] == hosts[1..][k - 1];
      Max(AddressWidth(w, HostUser(hosts[0], creds), hosts[0].host, hosts[0].port), AddressNeed(w, hosts[1..], creds))
  }

  /** The columns ask for what the widest name and address need. */
  lemma {:induction false} NeedIsReached(w: Widths, hosts: seq<Host>, creds: seq<Credential>)
    requires hosts != []
    ensures exists h :: h in hosts && NameNeed(w, hosts) == Cells(w, h.name)
    ensures exists h :: h in hosts
              && AddressNeed(w, hosts, creds) == AddressWidth(w, HostUser(h, creds), h.host, h.port)
  {
    hide Cells, AddressWidth, HostUser;
    assert hosts[0] in hosts;
    if |hosts| > 1 {
      NeedIsReached(w, hosts[1..], creds);
      assert forall h | h in hosts[1..] :: h in hosts;
    } else {
      assert hosts[1..] == [];
      assert NameNeed(w, hosts[1..]) == 0 && AddressNeed(w, hosts[1..], creds) == 0;
    }
  }

  /** The columns of the host list in an area `width` cells wide; `shown` are the
      hosts on the ranked list. */
  function HostColumns(w: Widths, shown: seq<Host>, creds: seq<Credential>, width: nat): Option<(nat, nat)> {
    ColumnWidths(Monus(width, 4), NameNeed(w, shown), AddressNeed(w, shown, creds), 40, 6, 12)
  }

  function HostRowText(w: Widths, host: Host, creds: seq<Credential>, selected: bool, nameW: nat, addrW: nat): string {
    HostRowLead(w, host.name, selected, nameW)
    + FormatAddress(w, HostUser(host, creds), host.host, host.port, addrW)
  }

  /** The host list can be laid out (no unsigned underflow) exactly when there is
      no room at all, or every name and address fits, or the area is at least ten
      cells wide. */
  lemma HostColumnsDefined(w: Widths, shown: seq<Host>, creds: seq<Credential>, width: nat)
    ensures HostColumns(w, shown, creds, width).Some?
            <==> || width <= 4
                 || NameNeed(w, shown) + AddressNeed(w, shown, creds) <= width - 4
                 || width >= 10
  {
    ShareAtMostAll(Monus(width, 4), 40);
    ColumnWidthsDefined(Monus(width, 4), NameNeed(w, shown), AddressNeed(w, shown, creds), 40, 6, 12);
  }

  /** When names and addresses contend, a name has two fifths of the cells, or what
      it needs; below twenty cells the address keeps twelve unless the name is down
      to six. */
  lemma HostColumnsContend(w: Widths, shown: seq<Host>, creds: seq<Credential>, width: nat)
    requires width >= 10 && NameNeed(w, shown) + AddressNeed(w, shown, creds) > width - 4
    ensures HostColumns(w, shown, creds, width).Some?
    ensures var (nameW, addrW) := HostColumns(w, shown, creds, width).value;
            && nameW + addrW == width - 4
            && (width >= 24 ==>
                  && nameW <= NameNeed(w, shown) && 5 * nameW <= 2 * (width - 4)
                  && (nameW == NameNeed(w, shown) || 5 * (nameW + 1) > 2 * (width - 4)))
            && (addrW >= 12 || nameW == 6)
  {
    hide ColumnWidths;
    ColumnWidthsSplit(width - 4, NameNeed(w, shown), AddressNeed(w, shown, creds), 40, 6, 12);
    ColumnWidthsContend(width - 4, NameNeed(w, shown), AddressNeed(w, shown, creds), 40, 6, 12);
  }

  lemma HostLeadCells(w: Widths, name: string, selected: bool, nameW: nat)
    requires Sane(w)
    ensures Cells(w, HostRowLead(w, name, selected, nameW)) == 4 + nameW
  {
    hide Padded;
    PaddedFills(w, name, nameW);
    MarkerCells(w, selected);
    AsciiCells(w, "  ");
    CellsConcat(w, Marker(selected), Padded(w, name, nameW));
    CellsConcat(w, Marker(selected) + Padded(w, name, nameW), "  ");
  }

  /** From ten cells on, every host row stays inside the list, the address starts
      at the same cell on every row, and when everything fits nothing is cut. */
  lemma HostRowsAligned(w: Widths, shown: seq<Host>, creds: seq<Credential>, width: nat, k: nat, selected: bool)
    requires Sane(w) && width >= 10 && k < |shown|
    ensures var columns := HostColumns(w, shown, creds, width);
            && columns.Some?
            && var (nameW, addrW) := columns.value;
            var lead := HostRowLead(w, shown[k].name, selected, nameW);
            var row := HostRowText(w, shown[k], creds, selected, nameW, addrW);
            && lead <= row
            && Cells(w, lead) == 4 + nameW
            && Cells(w, row) <= width
            && (0 < NameNeed(w, shown) <= width - 4 - AddressNeed(w, shown, creds) ==>
                  row == Marker(selected) + shown[k].name + Spaces(nameW - Cells(w, shown[k].name)) + "  "
                         + FullAddress(HostUser(shown[k], creds), shown[k].host, shown[k].port))
  {
    hide HostRowLead, FormatAddress, FullAddress, ColumnWidths, AddressWidth, HostUser, Cells;
    var h, user := shown[k], HostUser(shown[k], creds);
    ColumnWidthsSplit(width - 4, NameNeed(w, shown), AddressNeed(w, shown, creds), 40, 6, 12);
    var (nameW, addrW) := HostColumns(w, shown, creds, width).value;
    HostLeadCells(w, h.name, selected, nameW);
    FormatAddressFits(w, user, h.host, h.port, addrW);
    CellsConcat(w, HostRowLead(w, h.name, selected, nameW), FormatAddress(w, user, h.host, h.port, addrW));
    LeadOfShortName(w, h.name, selected, nameW);
  }

  lemma LeadOfShortName(w: Widths, name: string, selected: bool, nameW: nat)
    requires Sane(w)
    ensures Cells(w, name) <= nameW && nameW > 0 ==>
              HostRowLead(w, name, selected, nameW)
              == Marker(selected) + name + Spaces(nameW - Cells(w, name)) + "  "
  {
    if Cells(w, name) <= nameW && nameW > 0 {
      assert Truncate(w, name, nameW) == name;
      assert Marker(selected) + (name + Spaces(nameW - Cells(w, name)))
             == Marker(selected) + name + Spaces(nameW - Cells(w, name));
    }
  }

  function CredNameNeed(w: Widths, creds: seq<Credential>): nat {
    if creds == [] then 0 else Max(Cells(w, creds[0].name), CredNameNeed(w, creds[1..]))
  }

  function CredUserNeed(w: Widths, creds: seq<Credential>): nat {
    if creds == [] then 0 else Max(Cells(w, creds[0].body.user), CredUserNeed(w, creds[1..]))
  }

  lemma {:induction false} CredNeedIsReached(w: Widths, creds: seq<Credential>)
    ensures forall c | c in creds :: Cells(w, c.name) <= CredNameNeed(w, creds)
    ensures forall c | c in creds :: Cells(w, c.body.user) <= CredUserNeed(w, creds)
    ensures creds != [] ==> exists c :: c in creds && CredNameNeed(w, creds) == Cells(w, c.name)
    ensures creds != [] ==> exists c :: c in creds && CredUserNeed(w, creds) == Cells(w, c.body.user)
  {
    hide Cells;
    if creds != [] {
      assert creds == [creds[0]] + creds[1..] && creds[0] in creds;
      assert forall c | c in creds[1..] :: c in creds;
      CredNeedIsReached(w, creds[1..]);
    }
  }

  function CredColumns(w: Widths, shown: seq<Credential>, width: nat): Option<(nat, nat)> {
    ColumnWidths(Monus(width, 14), CredNameNeed(w, shown), CredUserNeed(w, shown), 50, 6, 4)
  }

  /** The credential list can be laid out exactly when there is no room at all,
      or all names and users fit, or the area has twenty cells, or the names are
      as good as empty. */
  lemma CredColumnsDefined(w: Widths, shown: seq<Credential>, width: nat)
    ensures CredColumns(w, shown, width).Some?
            <==> || width <= 14
                 || CredNameNeed(w, shown) + CredUserNeed(w, shown) <= width - 14
                 || width >= 20
                 || CredNameNeed(w, shown) + 18 <= width
  {
    ShareAtMostAll(Monus(width, 14), 50);
    ColumnWidthsDefined(Monus(width, 14), CredNameNeed(w, shown), CredUserNeed(w, shown), 50, 6, 4);
  }

  /** When names and users contend, a name has half of the cells, or what it needs;
      below eight cells the user keeps four unless the name is down to six. */
  lemma CredColumnsContend(w: Widths, shown: seq<Credential>, width: nat)
    requires width >= 20 && CredNameNeed(w, shown) + CredUserNeed(w, shown) > width - 14
    ensures CredColumns(w, shown, width).Some?
    ensures var (nameW, userW) := CredColumns(w, shown, width).value;
            && nameW + userW == width - 14
            && (width >= 22 ==> nameW == Min(CredNameNeed(w, shown), (width - 14) / 2))
            && (userW >= 4 || nameW == 6)
  {
    hide ColumnWidths;
    ColumnWidthsSplit(width - 14, CredNameNeed(w, shown), CredUserNeed(w, shown), 50, 6, 4);
    ColumnWidthsContend(width - 14, CredNameNeed(w, shown), CredUserNeed(w, shown), 50, 6, 4);
  }

  /** From twenty cells on, every credential row is exactly as wide as the list. */
  lemma CredRowsFill(w: Widths, shown: seq<Credential>, width: nat, k: nat, selected: bool)
    requires Sane(w) && width >= 20 && k < |shown|
    ensures var columns := CredColumns(w, shown, width);
            && columns.Some?
            && Cells(w, CredRowText(w, shown[k], selected, columns.value.0, columns.value.1, width)) == width
  {
    ColumnWidthsSplit(width - 14, CredNameNeed(w, shown), CredUserNeed(w, shown), 50, 6, 4);
    var (nameW, userW) := CredColumns(w, shown, width).value;
    CredRowCells(w, shown[k], selected, nameW, userW, width);
  }

  lemma CredRowCells(w: Widths, cred: Credential, selected: bool, nameW: nat, userW: nat, width: nat)
    requires Sane(w) && nameW + userW + 14 == width
    ensures Cells(w, CredRowText(w, cred, selected, nameW, userW, width)) == width
  {
    hide Padded;
    var kind := "  " + KindLabel(KindOf(cred.body));
    var name, user := Padded(w, cred.name, nameW), Padded(w, cred.body.user, userW);
    var fill := Spaces(Monus(width, 2 + nameW + 2 + userW + |kind|));
    PaddedFills(w, cred.name, nameW);
    PaddedFills(w, cred.body.user, userW);
    MarkerCells(w, selected);
    AsciiCells(w, "  ");
    AsciiCells(w, fill);
    AsciiCells(w, kind);
    var m := Marker(selected);
    CellsConcat(w, m, name);
    CellsConcat(w, m + name, "  ");
    CellsConcat(w, m + name + "  ", user);
    CellsConcat(w, m + name + "  " + user, fill);
    CellsConcat(w, m + name + "  " + user + fill, kind);
  }
}
