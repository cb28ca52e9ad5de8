/** The staff dashboard: the session guard, the member and program lists it
    holds, the payment-status toggle, the program add/edit/delete dialog and
    the summary figures. */
module AdminDashboard {
  import opened Service
  import opened Records
  import opened Aggregates
  import JsNumber

  const DefaultCategory := "pendidikan"

  /** The add/edit dialog's fields, as the inputs hold them (all text). */
  datatype ProgramForm = ProgramForm(title: string, description: string, target: string, category: string)

  const BlankForm := ProgramForm("", "", "", DefaultCategory)

  /** The record the dialog writes; a target that parses to NaN is `None`. */
  datatype ProgramPayload = ProgramPayload(title: string, description: string, target: Option<int>, category: string)

  datatype SaveRequest = UpdateProgram(id: string, payload: ProgramPayload) | InsertProgram(payload: ProgramPayload)

  /** The `update({ payment_status }).eq("id", memberId)` a toggle issues. */
  datatype StatusUpdate = StatusUpdate(memberId: string, paymentStatus: string)

  /** The summary figures `fetchData` derives. The cards show the donation
      total, the monthly total and the paid count (beside the program
      count); the unpaid count is computed but not displayed. */
  datatype Stats = Stats(totalDonations: int, totalKakasaku: int, paidMembers: nat, unpaidMembers: nat)

  // ---------------------------------------------------------------------
  // Payment-status toggle

  /** "lunas" flips to "belum"; every other status, known or not, becomes "lunas". */
  function NextStatus(current: string): (s: string)
    ensures s == Unpaid <==> current == Paid
    ensures s == Paid || s == Unpaid
  {
    if current == Paid then Unpaid else Paid
  }

  /** Toggling twice gives back the original status exactly for the two
      statuses the dashboard knows. */
  lemma NextStatusTwice(current: string)
    ensures NextStatus(NextStatus(current)) == current <==> current == Paid || current == Unpaid
  {
  }

  /** `members.map(m => m.id === id ? { ...m, payment_status: status } : m)`. */
  function WithStatus(ms: seq<Member>, id: string, status: string): (r: seq<Member>)
    ensures |r| == |ms|
    ensures forall i :: 0 <= i < |ms| ==>
      r[i] == if ms[i].id == id then ms[i].(paymentStatus := status) else ms[i]
  {
    if ms == [] then []
    else [if ms[0].id == id then ms[0].(paymentStatus := status) else ms[0]] + WithStatus(ms[1..], id, status)
  }

  /** Toggling the same member twice restores the list when that member's
      status was "lunas" or "belum". */
  lemma ToggleTwiceRestoresList(ms: seq<Member>, id: string, current: string)
    requires current == Paid || current == Unpaid
    requires forall m :: m in ms && m.id == id ==> m.paymentStatus == current
    ensures WithStatus(WithStatus(ms, id, NextStatus(current)), id, NextStatus(NextStatus(current))) == ms
  {
    var r := WithStatus(WithStatus(ms, id, NextStatus(current)), id, NextStatus(NextStatus(current)));
    forall i | 0 <= i < |ms| ensures r[i] == ms[i] {
      assert ms[i] in ms;
    }
  }

  /** A status change leaves the monthly total untouched. */
  lemma {:induction false} WithStatusKeepsKakasakuTotal(ms: seq<Member>, id: string, status: string)
    ensures SumMonthly(WithStatus(ms, id, status)) == SumMonthly(ms)
  {
    if ms != [] {
      var r := WithStatus(ms, id, status);
      var n := |ms|;
      assert r[..n - 1] == WithStatus(ms[..n - 1], id, status);
      WithStatusKeepsKakasakuTotal(ms[..n - 1], id, status);
    }
  }

  /** No two members share an id. */
  ghost predicate UniqueIds(ms: seq<Member>)
  {
    forall i, j :: 0 <= i < j < |ms| ==> ms[i].id != ms[j].id
  }

  /** Setting the status of an id nobody has changes nothing. */
  lemma WithStatusAbsent(ms: seq<Member>, id: string, status: string)
    requires forall i :: 0 <= i < |ms| ==> ms[i].id != id
    ensures WithStatus(ms, id, status) == ms
  {
  }

  lemma UniqueIdsRest(ms: seq<Member>)
    requires ms != [] && UniqueIds(ms)
    ensures UniqueIds(ms[1..])
    ensures forall i :: 0 <= i < |ms| - 1 ==> ms[1..][i].id != ms[0].id
  {
  }

  /** When ids are unique, setting member k's status moves exactly one member
      from its old status to the new one in every status count. */
  lemma {:induction false} CountAfterSetStatus(ms: seq<Member>, k: nat, status: string, q: string)
    requires k < |ms| && UniqueIds(ms)
    ensures CountStatus(WithStatus(ms, ms[k].id, status), q)
         == CountStatus(ms, q) - (if ms[k].paymentStatus == q then 1 else 0) + (if status == q then 1 else 0)
  {
    var id := ms[k].id;
    var rest := ms[1..];
    UniqueIdsRest(ms);
    if k == 0 {
      WithStatusAbsent(rest, id, status);
    } else {
      assert rest[k - 1] == ms[k];
      CountAfterSetStatus(rest, k - 1, status, q);
    }
  }

  /** Toggling a paid member (ids unique) takes one from the paid count and
      adds one to the unpaid count; the monthly total stays. */
  lemma TogglePaidMemberShiftsCounts(ms: seq<Member>, k: nat)
    requires k < |ms| && UniqueIds(ms) && ms[k].paymentStatus == Paid
    ensures var before := ComputeStats([], ms);
      var after := ComputeStats([], WithStatus(ms, ms[k].id, NextStatus(ms[k].paymentStatus)));
      && after.paidMembers == before.paidMembers - 1
      && after.unpaidMembers == before.unpaidMembers + 1
      && after.totalKakasaku == before.totalKakasaku
  {
    CountAfterSetStatus(ms, k, Unpaid, Paid);
    CountAfterSetStatus(ms, k, Unpaid, Unpaid);
    WithStatusKeepsKakasakuTotal(ms, ms[k].id, Unpaid);
  }

  // ---------------------------------------------------------------------
  // Program list

  /** `programs.filter(p => p.id !== id)`. */
  function WithoutProgram(ps: seq<Program>, id: string): (r: seq<Program>)
    ensures |r| <= |ps|
    ensures forall p :: p in r ==> p in ps && p.id != id
    ensures forall p :: p in ps && p.id != id ==> p in r
    ensures forall p :: multiset(r)[p] == if p.id != id then multiset(ps)[p] else 0
  {
    if ps == [] then []
    else
      var rest := WithoutProgram(ps[1..], id);
      assert ps == [ps[0]] + ps[1..];
      if ps[0].id != id then
        assert multiset([ps[0]] + rest) == multiset{ps[0]} + multiset(rest);
        [ps[0]] + rest
      else rest
  }

  /** Filtering distributes over concatenation, so the remaining programs
      keep their relative order. */
  lemma {:induction false} WithoutProgramAppend(a: seq<Program>, b: seq<Program>, id: string)
    ensures WithoutProgram(a + b, id) == WithoutProgram(a, id) + WithoutProgram(b, id)
  {
    if a == [] {
      assert a + b == b;
    } else {
      assert (a + b)[0] == a[0];
      assert (a + b)[1..] == a[1..] + b;
      WithoutProgramAppend(a[1..], b, id);
    }
  }

  /** Removing an id nobody has changes nothing; in particular removing the
      same id a second time changes nothing. */
  lemma {:induction false} WithoutAbsentProgram(ps: seq<Program>, id: string)
    requires forall p :: p in ps ==> p.id != id
    ensures WithoutProgram(ps, id) == ps
  {
    if ps != [] {
      assert ps[0] in ps;
      assert forall p :: p in ps[1..] ==> p in ps;
      WithoutAbsentProgram(ps[1..], id);
    }
  }

  lemma WithoutProgramIdempotent(ps: seq<Program>, id: string)
    ensures WithoutProgram(WithoutProgram(ps, id), id) == WithoutProgram(ps, id)
  {
    WithoutAbsentProgram(WithoutProgram(ps, id), id);
  }

  // ---------------------------------------------------------------------
  // Program dialog

  /** `handleEditProgram`'s form: the title, the description (null gives
      ""), the target as decimal text, the category (null or "" gives
      "pendidikan"). */
  function EditForm(p: Program): (f: ProgramForm)
    ensures f.title == p.title
    ensures f.description == (if p.description.Some? then p.description.value else "")
    ensures JsNumber.ParseInt(f.target) == Some(p.target)
    ensures f.category != ""
    ensures p.category.Some? && p.category.value != "" ==> f.category == p.category.value
    ensures p.category.None? || p.category.value == "" ==> f.category == DefaultCategory
  {
    JsNumber.ParseIntToString(p.target);
    ProgramForm(
      p.title,
      if p.description.Some? then p.description.value else "",
      JsNumber.IntToString(p.target),
      if p.category.Some? && p.category.value != "" then p.category.value else DefaultCategory)
  }

  /** The record `handleSaveProgram` builds from the form. */
  function Payload(f: ProgramForm): (r: ProgramPayload)
  {
    ProgramPayload(f.title, f.description, JsNumber.ParseInt(f.target), f.category)
  }

  /** `if (editingId)`: a non-empty id means update by that id, otherwise
      insert. */
  function SaveRequestFor(editingId: Option<string>, f: ProgramForm): (r: SaveRequest)
    ensures r.payload == Payload(f)
    ensures r.UpdateProgram? <==> editingId.Some? && editingId.value != ""
    ensures r.UpdateProgram? ==> r.id == editingId.value
  {
    if editingId.Some? && editingId.value != "" then UpdateProgram(editingId.value, Payload(f))
    else InsertProgram(Payload(f))
  }

  /** Opening a program for editing and saving it unchanged writes that
      program's own title, description, target and category back by its id. */
  lemma EditThenSaveWritesProgramBack(p: Program)
    requires p.id != ""
    requires p.description.Some? && p.category.Some? && p.category.value != ""
    ensures SaveRequestFor(Some(p.id), EditForm(p))
         == UpdateProgram(p.id, ProgramPayload(p.title, p.description.value, Some(p.target), p.category.value))
  {
  }

  /** Saving an unchanged Edit form of a program whose description and
      category are null writes "" and "pendidikan" in their place. */
  lemma EditThenSaveFillsDefaults(p: Program)
    requires p.id != "" && p.description.None? && p.category.None?
    ensures SaveRequestFor(Some(p.id), EditForm(p))
         == UpdateProgram(p.id, ProgramPayload(p.title, "", Some(p.target), DefaultCategory))
  {
  }

  /** Saving a freshly opened "add" dialog inserts a blank program in the
      default category with a NaN target. */
  lemma AddThenSaveInsertsBlank()
    ensures SaveRequestFor(None, BlankForm) == InsertProgram(ProgramPayload("", "", None, DefaultCategory))
  {
  }

  // ---------------------------------------------------------------------
  // Summary figures

  /** The summary figures: all donations summed with no type filter, all
      monthly pledges summed, and the paid and unpaid counts (only the paid
      count reaches a card). */
  function ComputeStats(ds: seq<Donation>, ms: seq<Member>): (s: Stats)
    ensures s.totalDonations == SumAmounts(ds) && s.totalKakasaku == SumMonthly(ms)
    ensures s.paidMembers == CountStatus(ms, Paid) && s.unpaidMembers == CountStatus(ms, Unpaid)
    ensures s.paidMembers + s.unpaidMembers <= |ms|
  {
    PaidPlusUnpaidAtMostMembers(ms);
    Stats(SumAmounts(ds), SumMonthly(ms), CountStatus(ms, Paid), CountStatus(ms, Unpaid))
  }

  // ---------------------------------------------------------------------
  // The component

  class Dashboard {
    var donations: seq<Donation>
    var members: seq<Member>
    var programs: seq<Program>
    var isLoading: bool
    var isDialogOpen: bool
    var isSaving: bool
    var editingId: Option<string>
    var form: ProgramForm
    /** The last `navigate` target, `None` while the page has not navigated. */
    var route: Option<string>

    constructor ()
      ensures donations == [] && members == [] && programs == []
      ensures isLoading && !isDialogOpen && !isSaving
      ensures editingId == None && form == BlankForm && route == None
    {
      donations, members, programs := [], [], [];
      isLoading, isDialogOpen, isSaving := true, false, false;
      editingId, form, route := None, BlankForm, None;
    }

    function Figures(): (s: Stats)
      reads this
      ensures s.paidMembers + s.unpaidMembers <= |members|
    {
      ComputeStats(donations, members)
    }

    /** `fetchData`: each of the three reads replaces its list when it
        returns data; the spinner is off afterwards. */
    method FetchData(donationsRead: Fetch<Donation>, membersRead: Fetch<Member>, programsRead: Fetch<Program>)
      modifies this`donations, this`members, this`programs, this`isLoading
      ensures donations == Latest(donationsRead, old(donations))
      ensures members == Latest(membersRead, old(members))
      ensures programs == Latest(programsRead, old(programs))
      ensures !isLoading
    {
      isLoading := true;
      if donationsRead.Rows? {
        donations := donationsRead.rows;
      }
      if membersRead.Rows? {
        members := membersRead.rows;
      }
      if programsRead.Rows? {
        programs := programsRead.rows;
      }
      isLoading := false;
    }

    /** The mount effect's `checkAuth`: without a session, navigate to the
        login page and read nothing; with one, fetch the data. */
    method CheckAuth(hasSession: bool, donationsRead: Fetch<Donation>, membersRead: Fetch<Member>, programsRead: Fetch<Program>)
      returns (fetched: bool)
      modifies this`donations, this`members, this`programs, this`isLoading, this`route
      ensures fetched == hasSession
      ensures !hasSession ==> route == Some(LoginPath)
      ensures !hasSession ==> (donations == old(donations) && members == old(members)
                               && programs == old(programs) && isLoading == old(isLoading))
      ensures hasSession ==> route == old(route) && !isLoading
      ensures hasSession ==> (donations == Latest(donationsRead, old(donations))
                              && members == Latest(membersRead, old(members))
                              && programs == Latest(programsRead, old(programs)))
    {
      if !hasSession {
        route := Some(LoginPath);
        return false;
      }
      FetchData(donationsRead, membersRead, programsRead);
      fetched := true;
    }

    /** The auth listener: any event that carries no session sends the page
        to the login page. */
    method OnAuthStateChange(hasSession: bool)
      modifies this`route
      ensures route == if hasSession then old(route) else Some(LoginPath)
    {
      if !hasSession {
        route := Some(LoginPath);
      }
    }

    /** `handleLogout`: after signing out, go to the login page. */
    method Logout()
      modifies this`route
      ensures route == Some(LoginPath)
    {
      route := Some(LoginPath);
    }

    /** `togglePaymentStatus`: write the next status; on success update the
        member in the held list, on failure keep the list. */
    method TogglePaymentStatus(memberId: string, currentStatus: string, reply: Reply)
      returns (request: StatusUpdate, toast: Toast)
      modifies this`members
      ensures request == StatusUpdate(memberId, NextStatus(currentStatus))
      ensures reply.Done? ==> members == WithStatus(old(members), memberId, request.paymentStatus)
      ensures reply.Done? ==> toast == Toast("Status Diperbarui",
        "Pembayaran diubah menjadi " + (if request.paymentStatus == Paid then "Lunas" else "Belum Bayar") + ".", false)
      ensures reply.Failed? ==> members == old(members) && toast == Toast("Error", "Gagal update status.", true)
    {
      var newStatus := NextStatus(currentStatus);
      request := StatusUpdate(memberId, newStatus);
      if reply.Failed? {
        toast := Toast("Error", "Gagal update status.", true);
        return;
      }
      members := WithStatus(members, memberId, newStatus);
      toast := Toast("Status Diperbarui",
        "Pembayaran diubah menjadi " + (if newStatus == Paid then "Lunas" else "Belum Bayar") + ".", false);
    }

    /** `handleAddProgram`: an empty dialog in insert mode. */
    method AddProgram()
      modifies this`editingId, this`form, this`isDialogOpen
      ensures editingId == None && form == BlankForm && isDialogOpen
    {
      editingId := None;
      form := BlankForm;
      isDialogOpen := true;
    }

    /** `handleEditProgram`: the dialog pre-filled from the program, in
        update mode for its id. */
    method EditProgram(p: Program)
      modifies this`editingId, this`form, this`isDialogOpen
      ensures editingId == Some(p.id) && form == EditForm(p) && isDialogOpen
    {
      editingId := Some(p.id);
      form := EditForm(p);
      isDialogOpen := true;
    }

    /** `handleDeleteProgram`: nothing happens unless the confirmation is
        accepted; a successful delete drops that id from the held list, a
        failed one keeps it. */
    method DeleteProgram(id: string, confirmed: bool, reply: Reply)
      returns (deleteIssued: bool, toast: Option<Toast>)
      modifies this`programs
      ensures deleteIssued == confirmed
      ensures !confirmed ==> programs == old(programs) && toast == None
      ensures confirmed && reply.Done? ==>
        programs == WithoutProgram(old(programs), id) && toast == Some(Toast("Program Dihapus", "", false))
      ensures confirmed && reply.Failed? ==>
        programs == old(programs) && toast == Some(Toast("Gagal Menghapus", "", true))
    {
      if !confirmed {
        return false, None;
      }
      deleteIssued := true;
      if reply.Failed? {
        toast := Some(Toast("Gagal Menghapus", "", true));
        return;
      }
      programs := WithoutProgram(programs, id);
      toast := Some(Toast("Program Dihapus", "", false));
    }

    /** `handleSaveProgram`: update or insert, then on success close the
        dialog and refetch; the saving flag is raised for the write and
        released on both paths. */
    method SaveProgram(reply: Reply, donationsRead: Fetch<Donation>, membersRead: Fetch<Member>, programsRead: Fetch<Program>)
      returns (request: SaveRequest, savingDuringWrite: bool, toast: Toast, refetched: bool)
      modifies this`isSaving, this`isDialogOpen, this`donations, this`members, this`programs, this`isLoading
      ensures request == SaveRequestFor(old(editingId), old(form))
      ensures savingDuringWrite && !isSaving
      ensures refetched == reply.Done?
      ensures reply.Done? ==> !isDialogOpen && !isLoading
      ensures reply.Done? ==> toast == if request.UpdateProgram? then Toast("Program Berhasil Diupdate", "", false)
                                       else Toast("Program Baru Ditambahkan", "", false)
      ensures reply.Done? ==> (donations == Latest(donationsRead, old(donations))
                               && members == Latest(membersRead, old(members))
                               && programs == Latest(programsRead, old(programs)))
      ensures reply.Failed? ==> toast == Toast("Gagal Menyimpan", reply.message, true)
      ensures reply.Failed? ==> (isDialogOpen == old(isDialogOpen) && isLoading == old(isLoading)
                                 && donations == old(donations) && members == old(members) && programs == old(programs))
    {
      request := SaveRequestFor(editingId, form);
      isSaving := true;
      savingDuringWrite := isSaving;
      if reply.Failed? {
        toast := Toast("Gagal Menyimpan", reply.message, true);
        refetched := false;
      } else {
        toast := if request.UpdateProgram? then Toast("Program Berhasil Diupdate", "", false)
                 else Toast("Program Baru Ditambahkan", "", false);
        isDialogOpen := false;
        FetchData(donationsRead, membersRead, programsRead);
        refetched := true;
      }
      isSaving := false;
    }
  }
}
