/**
 * src/screens/InvitationsScreen.jsx: the four per-type invitation lists,
 * their fetch, the gate-permission status toggle, and the role-dependent
 * tabs and initial fetches.
 */
module InvitationsScreen {
  import opened Wrappers
  import Json
  import FormData
  import AxiosInstance
  import Navigation
  import Formik

  /** An invitation as the list endpoint returns it (the fields the screen reads). */
  datatype Invitation = Invitation(invitationId: string, codeStatus: string, code: string, qrcode: string)

  /** The list reply: `status` and the invitations of the requested type. */
  datatype ListBody = ListBody(status: string, data: seq<Invitation>)

  /** The four list slots of the screen's state. */
  datatype Slots = Slots(oneTime: seq<Invitation>, tenant: seq<Invitation>, family: seq<Invitation>, gate: seq<Invitation>)

  datatype Slot = OneTimeSlot | TenantSlot | FamilySlot | GateSlot

  const EmptySlots: Slots := Slots([], [], [], [])

  function SlotList(s: Slots, slot: Slot): seq<Invitation> {
    match slot
    case OneTimeSlot => s.oneTime
    case TenantSlot => s.tenant
    case FamilySlot => s.family
    case GateSlot => s.gate
  }

  /** Which slot a request type fills; other types fill none. */
  function SlotFor(t: string): Option<Slot> {
    if t == "oneTimePass" then Some(OneTimeSlot)
    else if t == "renter" then Some(TenantSlot)
    else if t == "family" then Some(FamilySlot)
    else if t == "permission" then Some(GateSlot)
    else None
  }

  function WithSlot(s: Slots, slot: Slot, data: seq<Invitation>): Slots {
    match slot
    case OneTimeSlot => s.(oneTime := data)
    case TenantSlot => s.(tenant := data)
    case FamilySlot => s.(family := data)
    case GateSlot => s.(gate := data)
  }

  /** The slots after a delivered list reply for type `t`. */
  function UpdateSlots(s: Slots, t: string, body: ListBody): Slots {
    if body.status == "OK" && SlotFor(t).Some? then WithSlot(s, SlotFor(t).value, body.data) else s
  }

  /** The list type each slot is filled from. */
  function TypeOf(slot: Slot): string {
    match slot
    case OneTimeSlot => "oneTimePass"
    case TenantSlot => "renter"
    case FamilySlot => "family"
    case GateSlot => "permission"
  }

  /** A list reply the `.then` callback accepts: delivered, with status `OK`. */
  predicate ListOk(reply: AxiosInstance.Settled<ListBody>) {
    AxiosInstance.Delivered(reply).Some? && AxiosInstance.Delivered(reply).value.status == "OK"
  }

  /** The slots after one `getInvitationsByType(t)` whose reply is `reply`. */
  function Fetched(s: Slots, t: string, reply: AxiosInstance.Settled<ListBody>): Slots {
    match AxiosInstance.Delivered(reply)
    case Some(body) => UpdateSlots(s, t, body)
    case None => s
  }

  /**
   * On status `OK` exactly the slot of the type takes the reply's list and
   * every other slot keeps its list; otherwise, or for an unknown type,
   * nothing changes.
   */
  lemma UpdateReplacesExactlyOneSlot(s: Slots, t: string, body: ListBody, slot: Slot)
    ensures SlotList(UpdateSlots(s, t, body), slot) ==
      if body.status == "OK" && SlotFor(t) == Some(slot) then body.data else SlotList(s, slot)
  {
  }

  /** A fetch fills the slot of its type with the list of an accepted reply, and leaves every other slot alone. */
  lemma FetchedSlot(s: Slots, t: string, reply: AxiosInstance.Settled<ListBody>, slot: Slot)
    ensures SlotList(Fetched(s, t, reply), slot) ==
      if ListOk(reply) && t == TypeOf(slot) then AxiosInstance.Delivered(reply).value.data else SlotList(s, slot)
  {
    match AxiosInstance.Delivered(reply)
    case Some(body) => UpdateReplacesExactlyOneSlot(s, t, body, slot);
    case None =>
  }

  /** The four known types map to four different slots. */
  lemma SlotForInjective(t1: string, t2: string)
    requires SlotFor(t1).Some? && SlotFor(t1) == SlotFor(t2)
    ensures t1 == t2
  {
  }

  /** `gateData.codeStatus === "active" ? "expired" : "active"` */
  function NextStatus(current: string): string {
    if current == "active" then "expired" else "active"
  }

  /** Toggling twice is the identity exactly on the two permission statuses. */
  lemma NextStatusInvolution(current: string)
    ensures NextStatus(NextStatus(current)) == current <==> current == "active" || current == "expired"
  {
  }

  datatype Tab = TenantTab | FamilyTab | OneTimeTab | GateTab

  /** The tab routes for the session's role. */
  function Tabs(user: Json.Object): seq<Tab> {
    if Navigation.IsOwner(user) then [TenantTab, FamilyTab, OneTimeTab, GateTab] else [OneTimeTab, GateTab]
  }

  /** The types fetched when the screen mounts, in order. */
  function InitialFetches(user: Json.Object): seq<string> {
    (if Navigation.IsOwner(user) then ["renter", "family"] else []) + ["oneTimePass", "permission"]
  }

  /** The slots after the mount effect's fetches, in the order they are issued. */
  function AfterMount(s: Slots, user: Json.Object, renter: AxiosInstance.Settled<ListBody>,
                      family: AxiosInstance.Settled<ListBody>, oneTime: AxiosInstance.Settled<ListBody>,
                      permission: AxiosInstance.Settled<ListBody>): Slots {
    var owned := if Navigation.IsOwner(user) then Fetched(Fetched(s, "renter", renter), "family", family) else s;
    Fetched(Fetched(owned, "oneTimePass", oneTime), "permission", permission)
  }

  /** The reply the mount effect receives for a slot's type. */
  function MountReply(slot: Slot, renter: AxiosInstance.Settled<ListBody>, family: AxiosInstance.Settled<ListBody>,
                      oneTime: AxiosInstance.Settled<ListBody>, permission: AxiosInstance.Settled<ListBody>)
    : AxiosInstance.Settled<ListBody> {
    match slot
    case TenantSlot => renter
    case FamilySlot => family
    case OneTimeSlot => oneTime
    case GateSlot => permission
  }

  /**
   * After mounting, a slot holds the list of its reply exactly when its type
   * was fetched for this role and the reply was accepted; otherwise it keeps
   * its list.
   */
  lemma {:induction false} AfterMountSlot(s: Slots, user: Json.Object, renter: AxiosInstance.Settled<ListBody>,
                                          family: AxiosInstance.Settled<ListBody>,
                                          oneTime: AxiosInstance.Settled<ListBody>,
                                          permission: AxiosInstance.Settled<ListBody>, slot: Slot)
    ensures var r := MountReply(slot, renter, family, oneTime, permission);
      SlotList(AfterMount(s, user, renter, family, oneTime, permission), slot) ==
      if TypeOf(slot) in InitialFetches(user) && ListOk(r) then AxiosInstance.Delivered(r).value.data
      else SlotList(s, slot)
  {
    var owned := if Navigation.IsOwner(user) then Fetched(Fetched(s, "renter", renter), "family", family) else s;
    if Navigation.IsOwner(user) {
      FetchedSlot(s, "renter", renter, slot);
      FetchedSlot(Fetched(s, "renter", renter), "family", family, slot);
    }
    FetchedSlot(owned, "oneTimePass", oneTime, slot);
    FetchedSlot(Fetched(owned, "oneTimePass", oneTime), "permission", permission, slot);
  }

  /** Every tab shown is filled by the initial load, and every fetched list has a tab. */
  lemma TabsMatchInitialFetches(user: Json.Object, t: string)
    ensures t in InitialFetches(user) ==> SlotFor(t).Some?
    ensures t in InitialFetches(user) <==>
      (t == "renter" && TenantTab in Tabs(user)) || (t == "family" && FamilyTab in Tabs(user))
      || (t == "oneTimePass" && OneTimeTab in Tabs(user)) || (t == "permission" && GateTab in Tabs(user))
  {
  }

  datatype Card = TenantCard | FamilyCard | OneTimeCard | GateCard

  /** Whether a card can be pressed: tenant, family and one-time cards only when approved; gate cards always. */
  predicate CardEnabled(card: Card, item: Invitation) {
    card == GateCard || item.codeStatus == "approved"
  }

  /** What pressing a card does. */
  datatype CardAction = ShareCode(code: string) | ShowQr(qrcode: string) | OpenGateSheet(item: Invitation)

  /**
   * A tenant or family card shares its code, a one-time card opens its QR
   * code, a gate card opens its permission sheet; a disabled card does nothing.
   */
  function PressCard(card: Card, item: Invitation): (a: Option<CardAction>)
    ensures a.Some? <==> CardEnabled(card, item)
    ensures a.Some? && (card == TenantCard || card == FamilyCard) ==> a.value == ShareCode(item.code)
    ensures a.Some? && card == OneTimeCard ==> a.value == ShowQr(item.qrcode)
    ensures card == GateCard ==> a == Some(OpenGateSheet(item))
  {
    if !CardEnabled(card, item) then None
    else match card
      case TenantCard => Some(ShareCode(item.code))
      case FamilyCard => Some(ShareCode(item.code))
      case OneTimeCard => Some(ShowQr(item.qrcode))
      case GateCard => Some(OpenGateSheet(item))
  }

  /** The list request for type `t`. */
  function ListRequest(user: Json.Object, t: string): seq<FormData.Entry> {
    FormData.SessionEntries(user) + [("type", FormData.Text(t))]
  }

  /** The status-toggle request for a gate permission. */
  function StatusRequest(user: Json.Object, gate: Invitation): seq<FormData.Entry> {
    [("new_status", FormData.Text(NextStatus(gate.codeStatus))),
     ("role", FormData.Text(FormData.UserField(user, "role"))),
     ("userId", FormData.Text(FormData.UserField(user, "userId"))),
     ("permissionId", FormData.Text(gate.invitationId))]
  }

  /** The toggle always asks for one of the two permission statuses, and for the other one than the current when it is one of them. */
  lemma StatusRequestToggles(user: Json.Object, gate: Invitation)
    ensures StatusRequest(user, gate)[0].1.value in {"active", "expired"}
    ensures gate.codeStatus in {"active", "expired"} ==> StatusRequest(user, gate)[0].1.value != gate.codeStatus
  {
  }

  class Screen {
    var isLoading: bool
    var isRefreshing: bool
    var slots: Slots
    /** The gate permission whose sheet is open. */
    var gateData: Option<Invitation>
    /** The QR code of the one-time pass whose sheet is open. */
    var qrCode: string

    /** The screen's initial state; `isRefreshing` is never set to true anywhere on the screen. */
    constructor ()
      ensures !isLoading && !isRefreshing && slots == EmptySlots && gateData.None? && qrCode == ""
    {
      qrCode := "";
      isLoading := false;
      isRefreshing := false;
      slots := EmptySlots;
      gateData := None;
    }

    /** `getInvitationsByType(t)`: fetch and, on `OK`, replace the type's slot. Both flags end false. */
    method GetInvitationsByType(user: Json.Object, t: string, reply: AxiosInstance.Settled<ListBody>)
      returns (request: seq<FormData.Entry>)
      modifies this`isLoading, this`isRefreshing, this`slots
      ensures request == ListRequest(user, t)
      ensures slots == Fetched(old(slots), t, reply)
      ensures !isLoading && !isRefreshing
    {
      isLoading := true;
      request := FormData.SessionEntries(user) + [("type", FormData.Text(t))];
      match AxiosInstance.Delivered(reply) {
        case Some(body) =>
          if body.status == "OK" {
            if t == "oneTimePass" {
              slots := slots.(oneTime := body.data);
            } else if t == "renter" {
              slots := slots.(tenant := body.data);
            } else if t == "family" {
              slots := slots.(family := body.data);
            } else if t == "permission" {
              slots := slots.(gate := body.data);
            }
          }
        case None =>
      }
      isRefreshing := false;
      isLoading := false;
    }

    /** A card press: the sheets take their item; a share returns the shared code. */
    method HandlePress(card: Card, item: Invitation) returns (shared: Option<string>)
      modifies this`gateData, this`qrCode
      ensures shared.Some? <==> PressCard(card, item).Some? && PressCard(card, item).value.ShareCode?
      ensures shared.Some? ==> shared.value == item.code
      ensures qrCode == if PressCard(card, item) == Some(ShowQr(item.qrcode)) then item.qrcode else old(qrCode)
      ensures gateData == if card == GateCard then Some(item) else old(gateData)
    {
      shared := None;
      match PressCard(card, item) {
        case Some(ShareCode(c)) => shared := Some(c);
        case Some(ShowQr(q)) => qrCode := q;
        case Some(OpenGateSheet(g)) => gateData := Some(g);
        case None =>
      }
    }

    /**
     * `changeInvitationStatus()`: posts the toggled status; on `OK` the
     * permission list is fetched again (its reply is `refetch`). The new
     * status is not applied locally: only the re-fetch shows it.
     */
    method ChangeInvitationStatus(user: Json.Object, reply: AxiosInstance.Settled<Json.Object>,
                                  refetch: AxiosInstance.Settled<ListBody>)
      returns (request: seq<FormData.Entry>, refetchRequest: Option<seq<FormData.Entry>>)
      requires gateData.Some?
      modifies this`isLoading, this`isRefreshing, this`slots
      ensures request == StatusRequest(user, old(gateData).value)
      ensures refetchRequest.Some? <==> Formik.StatusOk(reply)
      ensures refetchRequest.Some? ==> refetchRequest.value == ListRequest(user, "permission")
      ensures slots == if Formik.StatusOk(reply) then Fetched(old(slots), "permission", refetch) else old(slots)
      ensures !isLoading
    {
      isLoading := true;
      var gate := gateData.value;
      request := [("new_status", FormData.Text(NextStatus(gate.codeStatus))),
                  ("role", FormData.Text(FormData.UserField(user, "role"))),
                  ("userId", FormData.Text(FormData.UserField(user, "userId"))),
                  ("permissionId", FormData.Text(gate.invitationId))];
      refetchRequest := None;
      if Formik.StatusOk(reply) {
        var again := GetInvitationsByType(user, "permission", refetch);
        refetchRequest := Some(again);
      }
      isLoading := false;
    }

    /**
     * The mount effect: owners fetch the renter and family lists, everyone
     * the one-time and permission lists, in that order. Each fetch is one
     * atomic request and reply here; `requests` are the requests issued.
     */
    method Mount(user: Json.Object, renter: AxiosInstance.Settled<ListBody>, family: AxiosInstance.Settled<ListBody>,
                 oneTime: AxiosInstance.Settled<ListBody>, permission: AxiosInstance.Settled<ListBody>)
      returns (requests: seq<seq<FormData.Entry>>)
      modifies this`isLoading, this`isRefreshing, this`slots
      ensures |requests| == |InitialFetches(user)|
      ensures forall i :: 0 <= i < |requests| ==> requests[i] == ListRequest(user, InitialFetches(user)[i])
      ensures slots == AfterMount(old(slots), user, renter, family, oneTime, permission)
      ensures !isLoading && !isRefreshing
    {
      requests := [];
      if Navigation.IsOwner(user) {
        var r1 := GetInvitationsByType(user, "renter", renter);
        var r2 := GetInvitationsByType(user, "family", family);
        requests := [r1, r2];
      }
      var r3 := GetInvitationsByType(user, "oneTimePass", oneTime);
      var r4 := GetInvitationsByType(user, "permission", permission);
      requests := requests + [r3, r4];
    }
  }
}
