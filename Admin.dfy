/**
 * The admin page (client/pages/Admin.tsx): the lists of NAMASTE codes and
 * users with their add and delete handlers, the mapping coverage figures
 * (overall and per category), the coverage bar colour, the statistics and
 * the text of the mappings CSV download.
 *
 * `Math.round(m / t * 100)` is computed on exact rationals, as the integer
 * `(200 * m + t) / (2 * t)`; a mapping's confidence is a real number printed
 * by an abstract `show` function.
 */
module Admin {

  import opened Text
  import opened Seqs

  datatype Category = Ayurveda | Siddha | Unani

  /** The categories the coverage tab lists, in its order. */
  const Categories: seq<Category> := [Ayurveda, Siddha, Unani]

  datatype MappingStatus = Verified | Pending

  datatype Role = AdminRole | Editor | Viewer

  datatype NamasteCode = NamasteCode(id: string, code: string, description: string, category: Category, createdAt: string)

  datatype Mapping = Mapping(id: string, namasteCode: string, icd11Code: string, confidence: real,
                             status: MappingStatus, createdAt: string)

  datatype User = User(id: string, name: string, email: string, role: Role, createdAt: string, lastLogin: Option<string>)

  datatype CodeForm = CodeForm(code: string, description: string, category: Category)

  datatype UserForm = UserForm(name: string, email: string, role: Role)

  const EmptyCodeForm: CodeForm := CodeForm("", "", Ayurveda)

  const EmptyUserForm: UserForm := UserForm("", "", Viewer)

  const MockCodes: seq<NamasteCode> := [
    NamasteCode("C1", "AYR-001", "Vata Vyadhi (Wind Disorder)", Ayurveda, "2024-01-01"),
    NamasteCode("C2", "SID-045", "Pitta Roga (Pitta Disease)", Siddha, "2024-01-02"),
    NamasteCode("C3", "UNA-012", "Humoral Imbalance", Unani, "2024-01-03")
  ]

  const MockMappings: seq<Mapping> := [
    Mapping("M1", "AYR-001", "BA25.1", 0.94, Verified, "2024-01-01"),
    Mapping("M2", "SID-045", "DA90", 0.87, Verified, "2024-01-02"),
    Mapping("M3", "UNA-012", "QD82", 0.76, Pending, "2024-01-03")
  ]

  const MockUsers: seq<User> := [
    User("U1", "Admin User", "admin@caresync.com", AdminRole, "2024-01-01", Some("2024-01-20")),
    User("U2", "Editor User", "editor@caresync.com", Editor, "2024-01-05", Some("2024-01-19")),
    User("U3", "Viewer User", "viewer@caresync.com", Viewer, "2024-01-10", Some("2024-01-15"))
  ]

  // --------------------------------------------------------------- lists

  class AdminPage {
    var codes: seq<NamasteCode>
    var mappings: seq<Mapping>
    var users: seq<User>
    var codeForm: CodeForm
    var userForm: UserForm
    var showCodeForm: bool
    var showUserForm: bool

    constructor ()
      ensures codes == MockCodes && mappings == MockMappings && users == MockUsers
      ensures codeForm == EmptyCodeForm && userForm == EmptyUserForm
      ensures !showCodeForm && !showUserForm
    {
      codes := MockCodes;
      mappings := MockMappings;
      users := MockUsers;
      codeForm := EmptyCodeForm;
      userForm := EmptyUserForm;
      showCodeForm := false;
      showUserForm := false;
    }

    method EditCodeForm(f: CodeForm)
      modifies this
      ensures codeForm == f
      ensures codes == old(codes) && mappings == old(mappings) && users == old(users) && userForm == old(userForm)
      ensures showCodeForm == old(showCodeForm) && showUserForm == old(showUserForm)
    {
      codeForm := f;
    }

    method EditUserForm(f: UserForm)
      modifies this
      ensures userForm == f
      ensures codes == old(codes) && mappings == old(mappings) && users == old(users) && codeForm == old(codeForm)
      ensures showCodeForm == old(showCodeForm) && showUserForm == old(showUserForm)
    {
      userForm := f;
    }

    /** The codes tab's button ("Add Code", or "Cancel" while the form is open) shows or hides the code form. */
    method ToggleCodeForm()
      modifies this
      ensures showCodeForm == !old(showCodeForm) && showUserForm == old(showUserForm)
      ensures codes == old(codes) && mappings == old(mappings) && users == old(users)
      ensures codeForm == old(codeForm) && userForm == old(userForm)
    {
      showCodeForm := !showCodeForm;
    }

    /** The code form's Cancel button hides it; what was typed stays in the form. */
    method HideCodeForm()
      modifies this
      ensures !showCodeForm && showUserForm == old(showUserForm)
      ensures codes == old(codes) && mappings == old(mappings) && users == old(users)
      ensures codeForm == old(codeForm) && userForm == old(userForm)
    {
      showCodeForm := false;
    }

    /** The users tab's button ("Add User", or "Cancel" while the form is open) shows or hides the user form. */
    method ToggleUserForm()
      modifies this
      ensures showUserForm == !old(showUserForm) && showCodeForm == old(showCodeForm)
      ensures codes == old(codes) && mappings == old(mappings) && users == old(users)
      ensures codeForm == old(codeForm) && userForm == old(userForm)
    {
      showUserForm := !showUserForm;
    }

    /** The user form's Cancel button hides it; what was typed stays in the form. */
    method HideUserForm()
      modifies this
      ensures !showUserForm && showCodeForm == old(showCodeForm)
      ensures codes == old(codes) && mappings == old(mappings) && users == old(users)
      ensures codeForm == old(codeForm) && userForm == old(userForm)
    {
      showUserForm := false;
    }

    /**
     * `handleAddCode`: nothing happens while the code or description is empty;
     * otherwise one code `C<now>` dated `nowIso`'s date is appended and the
     * form is reset and hidden. Mappings and users are untouched.
     */
    method AddCode(now: nat, nowIso: string)
      modifies this
      ensures mappings == old(mappings) && users == old(users) && userForm == old(userForm)
      ensures showUserForm == old(showUserForm)
      ensures old(codeForm.code) == "" || old(codeForm.description) == "" ==>
                codes == old(codes) && codeForm == old(codeForm) && showCodeForm == old(showCodeForm)
      ensures old(codeForm.code) != "" && old(codeForm.description) != "" ==>
                && codes == old(codes) + [NamasteCode("C" + DecimalString(now), old(codeForm.code),
                                                      old(codeForm.description), old(codeForm.category),
                                                      DatePart(nowIso))]
                && codeForm == EmptyCodeForm && !showCodeForm
    {
      if codeForm.code == "" || codeForm.description == "" {
        return;
      }
      codes := codes + [NamasteCode("C" + DecimalString(now), codeForm.code, codeForm.description,
                                    codeForm.category, DatePart(nowIso))];
      codeForm := EmptyCodeForm;
      showCodeForm := false;
    }

    /**
     * `handleAddUser`: nothing happens while the name or e-mail is empty;
     * otherwise one user `U<now>`, never logged in, is appended and the form
     * is reset and hidden. Codes and mappings are untouched.
     */
    method AddUser(now: nat, nowIso: string)
      modifies this
      ensures codes == old(codes) && mappings == old(mappings) && codeForm == old(codeForm)
      ensures showCodeForm == old(showCodeForm)
      ensures old(userForm.name) == "" || old(userForm.email) == "" ==>
                users == old(users) && userForm == old(userForm) && showUserForm == old(showUserForm)
      ensures old(userForm.name) != "" && old(userForm.email) != "" ==>
                && users == old(users) + [User("U" + DecimalString(now), old(userForm.name), old(userForm.email),
                                               old(userForm.role), DatePart(nowIso), None)]
                && userForm == EmptyUserForm && !showUserForm
    {
      if userForm.name == "" || userForm.email == "" {
        return;
      }
      users := users + [User("U" + DecimalString(now), userForm.name, userForm.email, userForm.role,
                             DatePart(nowIso), None)];
      userForm := EmptyUserForm;
      showUserForm := false;
    }

    /** `handleDeleteCode`: keeps every code whose id differs, in order; mappings stay. */
    method DeleteCode(id: string)
      modifies this
      ensures codes == Filter((c: NamasteCode) => c.id != id, old(codes))
      ensures mappings == old(mappings) && users == old(users)
      ensures codeForm == old(codeForm) && userForm == old(userForm)
      ensures showCodeForm == old(showCodeForm) && showUserForm == old(showUserForm)
    {
      codes := Filter((c: NamasteCode) => c.id != id, codes);
    }

    /** `handleDeleteUser`: keeps every user whose id differs, in order. */
    method DeleteUser(id: string)
      modifies this
      ensures users == Filter((u: User) => u.id != id, old(users))
      ensures codes == old(codes) && mappings == old(mappings)
      ensures codeForm == old(codeForm) && userForm == old(userForm)
      ensures showCodeForm == old(showCodeForm) && showUserForm == old(showUserForm)
    {
      users := Filter((u: User) => u.id != id, users);
    }
  }

  /** Deleting a code removes exactly the codes with that id. */
  lemma DeleteCodeRemovesExactly(cs: seq<NamasteCode>, id: string, c: NamasteCode)
    ensures c in Filter((x: NamasteCode) => x.id != id, cs) <==> c in cs && c.id != id
  {
    FilterMembership((x: NamasteCode) => x.id != id, cs, c);
  }

  /** Deleting a user removes exactly the users with that id. */
  lemma DeleteUserRemovesExactly(us: seq<User>, id: string, u: User)
    ensures u in Filter((x: User) => x.id != id, us) <==> u in us && u.id != id
  {
    FilterMembership((x: User) => x.id != id, us, u);
  }

  /** Deleting keeps the survivors in order: deleting from a concatenation deletes from each part. */
  lemma DeleteKeepsOrder(cs: seq<NamasteCode>, more: seq<NamasteCode>, id: string)
    ensures Filter((x: NamasteCode) => x.id != id, cs + more)
            == Filter((x: NamasteCode) => x.id != id, cs) + Filter((x: NamasteCode) => x.id != id, more)
  {
    FilterAppend((x: NamasteCode) => x.id != id, cs, more);
  }

  // ------------------------------------------------------------ coverage

  /** `Math.round(m / t * 100)`: the whole percentage nearest to `100 m / t`, halves rounded up. */
  function RoundedPercent(m: nat, t: nat): (r: int)
    requires t > 0
    ensures -(t as int) <= 2 * (100 * m - r * t) < t
  {
    var r := (200 * m + t) / (2 * t);
    DivBounds(200 * m + t, 2 * t);
    r
  }

  lemma DivBounds(a: nat, b: nat)
    requires b > 0
    ensures (a / b) * b <= a < (a / b) * b + b
  {
  }

  /** A positive multiple of `t` is at least `t`. */
  lemma MultipleAtLeast(k: int, t: nat)
    requires k >= 1
    ensures k * t >= t
  {
    assert k * t == t + (k - 1) * t;
  }

  /** Multiples of `t` a whole step apart differ by at least `t`. */
  lemma GapCostsAWhole(a: int, b: int, t: nat)
    ensures a > b ==> a * t - b * t >= t
  {
    if a > b {
      assert a * t - b * t == (a - b) * t;
      MultipleAtLeast(a - b, t);
    }
  }

  /** Only one integer is within half a unit of `100 m / t` in that way. */
  lemma RoundedPercentUnique(m: nat, t: nat, r: int)
    requires t > 0
    requires -(t as int) <= 2 * (100 * m - r * t) < t
    ensures r == RoundedPercent(m, t)
  {
    var q := RoundedPercent(m, t);
    GapCostsAWhole(q, r, t);
    GapCostsAWhole(r, q, t);
  }

  /** The percentage lies in [0, 100] when `m` is at most `t`. */
  lemma RoundedPercentBounds(m: nat, t: nat)
    requires 0 < t && m <= t
    ensures 0 <= RoundedPercent(m, t) <= 100
  {
    GapCostsAWhole(RoundedPercent(m, t), 100, t);
  }

  predicate IsVerified(m: Mapping)
  {
    m.status == Verified
  }

  predicate IsPending(m: Mapping)
  {
    m.status == Pending
  }

  /** `mappedCodes`: verified mappings, whether or not their code still exists. */
  function VerifiedCount(ms: seq<Mapping>): (r: nat)
    ensures r <= |ms|
    ensures r == 0 <==> forall i :: 0 <= i < |ms| ==> ms[i].status == Pending
    ensures r == |ms| <==> forall i :: 0 <= i < |ms| ==> ms[i].status == Verified
  {
    Count(IsVerified, ms)
  }

  function PendingCount(ms: seq<Mapping>): nat
  {
    Count(IsPending, ms)
  }

  /** `coveragePercentage`. */
  function Coverage(cs: seq<NamasteCode>, ms: seq<Mapping>): (r: int)
    ensures |cs| == 0 ==> r == 0
    ensures |cs| > 0 ==> -|cs| <= 2 * (100 * VerifiedCount(ms) - r * |cs|) < |cs|
  {
    if |cs| > 0 then RoundedPercent(VerifiedCount(ms), |cs|) else 0
  }

  /**
   * The statistics' "Unmapped": codes minus verified mappings. It never
   * exceeds the number of codes, equals it when nothing is verified, and goes
   * negative when more mappings are verified than there are codes.
   */
  function Unmapped(cs: seq<NamasteCode>, ms: seq<Mapping>): (r: int)
    ensures |cs| - |ms| <= r <= |cs|
    ensures r == |cs| <==> forall i :: 0 <= i < |ms| ==> ms[i].status == Pending
  {
    |cs| - VerifiedCount(ms)
  }

  /** Verified and pending mappings account for every mapping. */
  lemma VerifiedPlusPending(ms: seq<Mapping>)
    ensures VerifiedCount(ms) + PendingCount(ms) == |ms|
  {
    CountSplit(IsVerified, IsPending, ms);
  }

  /** Mapped plus unmapped is the number of codes. */
  lemma MappedPlusUnmapped(cs: seq<NamasteCode>, ms: seq<Mapping>)
    ensures VerifiedCount(ms) + Unmapped(cs, ms) == |cs|
  {
  }

  /**
   * More verified mappings than codes, as after deleting mapped codes, puts
   * the coverage at 100 or more and "Unmapped" below zero.
   */
  lemma OverfullCoverage(cs: seq<NamasteCode>, ms: seq<Mapping>)
    requires 0 < |cs| < VerifiedCount(ms)
    ensures Coverage(cs, ms) >= 100
    ensures Unmapped(cs, ms) < 0
  {
    var m := VerifiedCount(ms);
    var t := |cs|;
    var r := Coverage(cs, ms);
    GapCostsAWhole(100, r, t);
  }

  /** With only the first mock code left, the two verified mappings give 200 % coverage and -1 unmapped. */
  lemma CoverageAfterDeletingCodes()
    ensures Coverage(MockCodes[..1], MockMappings) == 200
    ensures Unmapped(MockCodes[..1], MockMappings) == -1
  {
    assert VerifiedCount(MockMappings) == 2 by {
      assert MockMappings[1..][1..][1..] == [];
    }
  }

  /** The mock data opens at 67 %: two verified mappings over three codes. */
  lemma InitialCoverage()
    ensures Coverage(MockCodes, MockMappings) == 67
  {
    assert VerifiedCount(MockMappings) == 2 by {
      assert MockMappings[1..][1..][1..] == [];
    }
  }

  // --------------------------------------------------- coverage by category

  /** A code of category `cat` with the mapping's NAMASTE code exists. */
  predicate HasCodeIn(cs: seq<NamasteCode>, cat: Category, m: Mapping)
  {
    Find((c: NamasteCode) => c.code == m.namasteCode && c.category == cat, cs).Some?
  }

  function CategoryCodeCount(cs: seq<NamasteCode>, cat: Category): nat
  {
    Count((c: NamasteCode) => c.category == cat, cs)
  }

  /** `catMappings`: verified mappings whose code is one of that category. */
  function CategoryMappingCount(cs: seq<NamasteCode>, ms: seq<Mapping>, cat: Category): (r: nat)
    ensures r <= |ms|
    ensures r == 0 <==> forall i :: 0 <= i < |ms| ==> !(HasCodeIn(cs, cat, ms[i]) && IsVerified(ms[i]))
  {
    Count((m: Mapping) => HasCodeIn(cs, cat, m) && IsVerified(m), ms)
  }

  function CategoryCoverage(cs: seq<NamasteCode>, ms: seq<Mapping>, cat: Category): (r: int)
    ensures CategoryCodeCount(cs, cat) == 0 ==> r == 0
    ensures CategoryCodeCount(cs, cat) > 0 ==>
              r == RoundedPercent(CategoryMappingCount(cs, ms, cat), CategoryCodeCount(cs, cat))
  {
    var n := CategoryCodeCount(cs, cat);
    if n > 0 then RoundedPercent(CategoryMappingCount(cs, ms, cat), n) else 0
  }

  /** A mapping counts for a category exactly when it is verified and some code of that category has its NAMASTE code. */
  lemma CategoryMappingCounted(cs: seq<NamasteCode>, cat: Category, m: Mapping)
    ensures HasCodeIn(cs, cat, m) && IsVerified(m) <==>
              IsVerified(m) && exists i :: 0 <= i < |cs| && cs[i].code == m.namasteCode && cs[i].category == cat
  {
    var p := (c: NamasteCode) => c.code == m.namasteCode && c.category == cat;
    if exists i :: 0 <= i < |cs| && cs[i].code == m.namasteCode && cs[i].category == cat {
      var i :| 0 <= i < |cs| && cs[i].code == m.namasteCode && cs[i].category == cat;
      assert p(cs[i]);
    }
  }

  /** A category never counts more mappings than are verified overall. */
  lemma CategoryWithinVerified(cs: seq<NamasteCode>, ms: seq<Mapping>, cat: Category)
    ensures CategoryMappingCount(cs, ms, cat) <= VerifiedCount(ms)
  {
    CountMonotone((m: Mapping) => HasCodeIn(cs, cat, m) && IsVerified(m), IsVerified, ms);
  }

  /** A category without codes has no mappings counted either. */
  lemma EmptyCategoryCountsNothing(cs: seq<NamasteCode>, ms: seq<Mapping>, cat: Category)
    requires CategoryCodeCount(cs, cat) == 0
    ensures CategoryMappingCount(cs, ms, cat) == 0
    ensures CategoryCoverage(cs, ms, cat) == 0
  {
    var inCat := (c: NamasteCode) => c.category == cat;
    forall i | 0 <= i < |cs|
      ensures !inCat(cs[i])
    {
      FilterMembership(inCat, cs, cs[i]);
    }
    var p := (m: Mapping) => HasCodeIn(cs, cat, m) && IsVerified(m);
    forall j | 0 <= j < |ms|
      ensures !p(ms[j])
    {
      CategoryMappingCounted(cs, cat, ms[j]);
    }
    FilterDropsAll(p, ms);
  }

  // ---------------------------------------------------------- bar colour

  datatype BarColour = Green | Yellow | Red

  /** Green above 80 %, yellow above 50 %, red otherwise. */
  function BarColourOf(percentage: int): (c: BarColour)
    ensures c == Green <==> percentage > 80
    ensures c == Yellow <==> 50 < percentage <= 80
    ensures c == Red <==> percentage <= 50
  {
    if percentage > 80 then Green
    else if percentage > 50 then Yellow
    else Red
  }

  function ColourRank(c: BarColour): nat
  {
    match c
    case Red => 0
    case Yellow => 1
    case Green => 2
  }

  /** A higher percentage never gets a worse colour. */
  lemma BarColourMonotone(p: int, q: int)
    requires p <= q
    ensures ColourRank(BarColourOf(p)) <= ColourRank(BarColourOf(q))
  {
  }

  // ----------------------------------------------------------------- CSV

  const CsvHeader: seq<string> := ["NAMASTE Code", "ICD-11 Code", "Confidence", "Status"]

  function StatusText(s: MappingStatus): (r: string)
    ensures |r| > 0 && ',' !in r && '\n' !in r
  {
    match s
    case Verified => "verified"
    case Pending => "pending"
  }

  /** The four fields of a mapping's CSV row. */
  function CsvRow(m: Mapping, show: real -> string): (r: seq<string>)
    ensures |r| == |CsvHeader|
  {
    [m.namasteCode, m.icd11Code, show(m.confidence), StatusText(m.status)]
  }

  function CsvLine(fields: seq<string>): string
  {
    Join(fields, ",")
  }

  /** The lines of the file before joining: the header, then one per mapping. */
  function CsvLines(ms: seq<Mapping>, show: real -> string): (r: seq<string>)
    ensures |r| == |ms| + 1
    ensures r[0] == CsvLine(CsvHeader)
    ensures forall i :: 0 <= i < |ms| ==> r[i + 1] == CsvLine(CsvRow(ms[i], show))
  {
    [CsvLine(CsvHeader)] + seq(|ms|, i requires 0 <= i < |ms| => CsvLine(CsvRow(ms[i], show)))
  }

  /**
   * The text of `mappings.csv`: it opens with the header line and never ends
   * with a line break.
   */
  function MappingsCsv(ms: seq<Mapping>, show: real -> string): (r: string)
    ensures |r| > 0 && r[|r| - 1] != '\n'
    ensures |r| >= |CsvLine(CsvHeader)| && r[..|CsvLine(CsvHeader)|] == CsvLine(CsvHeader)
  {
    var lines := CsvLines(ms, show);
    var lastFields := if |ms| == 0 then CsvHeader else CsvRow(ms[|ms| - 1], show);
    assert lines[|lines| - 1] == CsvLine(lastFields);
    assert lastFields[3] == if |ms| == 0 then "Status" else StatusText(ms[|ms| - 1].status);
    LineEndsWithLastField(lastFields);
    JoinEndsWithLastPart(lines, "\n");
    Join(lines, "\n")
  }

  /** No field of the mapping's row holds a line break. */
  predicate SingleLine(m: Mapping, show: real -> string)
  {
    '\n' !in m.namasteCode && '\n' !in m.icd11Code && '\n' !in show(m.confidence)
  }

  /** A line of the file holds no line break when its fields hold none. */
  lemma CsvLineIsSingle(fields: seq<string>)
    requires forall f :: 0 <= f < |fields| ==> '\n' !in fields[f]
    ensures '\n' !in CsvLine(fields)
  {
    JoinHasNoOtherChar(fields, ",", '\n');
  }

  /** The header line holds no line break. */
  lemma HeaderIsSingle()
    ensures '\n' !in CsvLine(CsvHeader)
  {
    forall f | 0 <= f < |CsvHeader|
      ensures '\n' !in CsvHeader[f]
    {
      assert CsvHeader[f] in {"NAMASTE Code", "ICD-11 Code", "Confidence", "Status"};
    }
    CsvLineIsSingle(CsvHeader);
  }

  lemma RowIsSingle(m: Mapping, show: real -> string)
    requires SingleLine(m, show)
    ensures '\n' !in CsvLine(CsvRow(m, show))
  {
    var row := CsvRow(m, show);
    assert row[3] == StatusText(m.status);
    CsvLineIsSingle(row);
  }

  /** The last character of a line is the last character of its last field. */
  lemma LineEndsWithLastField(fields: seq<string>)
    requires |fields| >= 1 && |fields[|fields| - 1]| > 0 && '\n' !in fields[|fields| - 1]
    ensures |CsvLine(fields)| > 0 && CsvLine(fields)[|CsvLine(fields)| - 1] != '\n'
  {
    JoinEndsWithLastPart(fields, ",");
    var last := fields[|fields| - 1];
    assert last[|last| - 1] in last;
  }

  /**
   * Splitting the file at line breaks gives the header and then one line per
   * mapping, as long as no field holds a line break.
   */
  lemma CsvHasOneLinePerMapping(ms: seq<Mapping>, show: real -> string)
    requires forall i :: 0 <= i < |ms| ==> SingleLine(ms[i], show)
    ensures Split(MappingsCsv(ms, show), '\n') == CsvLines(ms, show)
    ensures |Split(MappingsCsv(ms, show), '\n')| == |ms| + 1
  {
    var lines := CsvLines(ms, show);
    forall k | 0 <= k < |lines|
      ensures '\n' !in lines[k]
    {
      if k == 0 {
        HeaderIsSingle();
      } else {
        RowIsSingle(ms[k - 1], show);
      }
    }
    SplitJoin(lines, '\n');
  }

  /** A row splits back into its four fields when no field holds a comma. */
  lemma CsvRowRoundTrip(m: Mapping, show: real -> string)
    requires ',' !in m.namasteCode && ',' !in m.icd11Code && ',' !in show(m.confidence)
    ensures Split(CsvLine(CsvRow(m, show)), ',') == CsvRow(m, show)
  {
    var row := CsvRow(m, show);
    assert row[3] == StatusText(m.status);
    SplitJoin(row, ',');
  }

  /**
   * Without quoting, every comma inside a field adds a column when the line
   * is read back: a row always reads back as four columns plus its hidden commas.
   */
  lemma CsvRowColumns(m: Mapping, show: real -> string)
    ensures |Split(CsvLine(CsvRow(m, show)), ',')|
            == 4 + CountChar(m.namasteCode, ',') + CountChar(m.icd11Code, ',') + CountChar(show(m.confidence), ',')
  {
    var row := CsvRow(m, show);
    SplitJoinLength(row, ',');
    var r1 := row[1..];
    var r2 := r1[1..];
    var r3 := r2[1..];
    assert r3 == [StatusText(m.status)] && r3[1..] == [];
    NoCommaInStatus(m.status);
    assert CountInParts(r3, ',') == 0;
    assert CountInParts(r2, ',') == CountChar(show(m.confidence), ',');
    assert CountInParts(r1, ',') == CountChar(m.icd11Code, ',') + CountChar(show(m.confidence), ',');
  }

  lemma NoCommaInStatus(s: MappingStatus)
    ensures CountChar(StatusText(s), ',') == 0
  {
    var t := StatusText(s);
    forall k | 0 <= k <= |t|
      ensures CountChar(t[k..], ',') == 0
    {
      NoCommaSuffix(t, k);
    }
    assert t[0..] == t;
  }

  lemma {:induction false} NoCommaSuffix(t: string, k: nat)
    requires ',' !in t && k <= |t|
    ensures CountChar(t[k..], ',') == 0
    decreases |t| - k
  {
    if k < |t| {
      NoCommaSuffix(t, k + 1);
      assert t[k..][1..] == t[k + 1..];
      assert t[k] in t;
    }
  }
}
