/**
 * The dashboard: loading the list of firms, the add-firm form, and deletion. A failed load with
 * status 401 or 422 logs the session out; failed creates and deletes only report.
 */
module DashboardPage {
  import opened Wrappers
  import opened Http
  import opened JsText
  import opened AuthService
  import opened AuthContext
  import opened FirmaList
  import opened Screens

  const LOADING_TEXT := "Yükleniyor..."
  const FETCH_FAILED := "Firmalar yüklenirken bir sorun oluştu."
  const FIELDS_REQUIRED := "Firma adı ve VKN zorunlu alanlardır."
  const CREATE_FAILED := "Firma eklenirken bir hata oluştu."
  const DELETE_FAILED := "Firma silinirken bir hata oluştu."

  /** The page-level render check: a placeholder only while loading with no user yet. */
  function View(isLoading: bool, currentUser: Option<User>): (o: Outcome)
    ensures o.Placeholder? <==> isLoading && currentUser.None?
    ensures !o.Placeholder? ==> o == Show(DashboardScreen)
  {
    if isLoading && currentUser.None? then Placeholder(LOADING_TEXT) else Show(DashboardScreen)
  }

  /** The create form's local check: `!adi.trim() || !vkn.trim()`. */
  function FieldsMissing(adi: string, vkn: string): (missing: bool)
    ensures missing <==> IsBlank(adi) || IsBlank(vkn)
  {
    Trim(adi) == "" || Trim(vkn) == ""
  }

  class Dashboard {
    const auth: AuthProvider
    var firmalar: seq<Firma>
    var isLoadingFirmalar: bool
    var errorFirmalar: string
    var yeniFirmaAdi: string
    var yeniFirmaVKN: string
    var firmaEklemeFormuGorunur: bool
    var firmaEklemeHatasi: string

    constructor (auth: AuthProvider)
      ensures this.auth == auth
      ensures firmalar == [] && !isLoadingFirmalar && errorFirmalar == ""
      ensures yeniFirmaAdi == "" && yeniFirmaVKN == "" && !firmaEklemeFormuGorunur && firmaEklemeHatasi == ""
    {
      this.auth := auth;
      firmalar := [];
      isLoadingFirmalar := false;
      errorFirmalar := "";
      yeniFirmaAdi := "";
      yeniFirmaVKN := "";
      firmaEklemeFormuGorunur := false;
      firmaEklemeHatasi := "";
    }

    /**
     * `fetchFirmalar`: nothing without a current user. Otherwise the list becomes the answer, or the
     * error is shown and, on 401 or 422, the session logged out; the loading flag ends false.
     */
    method FetchFirmalar(response: Response<seq<Firma>>) returns (requested: bool)
      requires auth.Valid()
      modifies this`firmalar, this`isLoadingFirmalar, this`errorFirmalar, auth, auth.store
      ensures auth.Valid()
      ensures requested <==> old(auth.currentUser).Some?
      ensures !requested ==> unchanged(this) && unchanged(auth) && unchanged(auth.store)
      ensures requested ==> !isLoadingFirmalar && auth.isLoading == old(auth.isLoading)
      ensures requested && response.Ok? ==> firmalar == response.value && errorFirmalar == ""
      ensures requested && response.Ok? ==> auth.Snapshot() == old(auth.Snapshot())
      ensures requested && response.Err? ==> firmalar == old(firmalar) && errorFirmalar == MessageOr(response.error, FETCH_FAILED)
      ensures requested && response.Err? ==> auth.Snapshot() == AfterFailedCall(old(auth.Snapshot()), response.error)
    {
      if auth.currentUser.None? {
        return false;
      }
      requested := true;
      isLoadingFirmalar := true;
      errorFirmalar := "";
      match response {
        case Ok(data) =>
          firmalar := data;
        case Err(e) =>
          errorFirmalar := MessageOr(e, FETCH_FAILED);
          if IsAuthFailure(e) {
            auth.Logout();
          }
      }
      isLoadingFirmalar := false;
    }

    /** The two inputs of the add form. */
    method EditNewFirma(adi: string, vkn: string)
      modifies this`yeniFirmaAdi, this`yeniFirmaVKN
      ensures yeniFirmaAdi == adi && yeniFirmaVKN == vkn
    {
      yeniFirmaAdi := adi;
      yeniFirmaVKN := vkn;
    }

    /** The "+ Yeni Firma Ekle" (open) and "İptal" (close) buttons. */
    method SetFormVisible(visible: bool)
      modifies this`firmaEklemeFormuGorunur
      ensures firmaEklemeFormuGorunur == visible
    {
      firmaEklemeFormuGorunur := visible;
    }

    /**
     * `handleFirmaEkleSubmit`: a blank name or VKN is refused locally. Otherwise the untrimmed
     * fields are sent; the created firm joins the list, which is then sorted by name, and the form
     * is emptied and hidden. A failure shows its message only: the list stays and the session too.
     */
    method HandleFirmaEkleSubmit(response: Response<Firma>, le: (string, string) -> bool)
      returns (request: Option<(string, string)>)
      requires TotalPreorder(le)
      modifies this`firmalar, this`yeniFirmaAdi, this`yeniFirmaVKN, this`firmaEklemeFormuGorunur, this`firmaEklemeHatasi
      ensures request.None? <==> IsBlank(old(yeniFirmaAdi)) || IsBlank(old(yeniFirmaVKN))
      ensures request.Some? ==> request.value == (old(yeniFirmaAdi), old(yeniFirmaVKN))
      ensures request.None? ==> firmaEklemeHatasi == FIELDS_REQUIRED
      ensures request.Some? && response.Ok? ==>
        && firmalar == WithCreated(response.value, old(firmalar), le)
        && yeniFirmaAdi == "" && yeniFirmaVKN == "" && !firmaEklemeFormuGorunur && firmaEklemeHatasi == ""
      ensures request.Some? && response.Err? ==> firmaEklemeHatasi == MessageOr(response.error, CREATE_FAILED)
      ensures !(request.Some? && response.Ok?) ==>
        && firmalar == old(firmalar)
        && yeniFirmaAdi == old(yeniFirmaAdi) && yeniFirmaVKN == old(yeniFirmaVKN)
        && firmaEklemeFormuGorunur == old(firmaEklemeFormuGorunur)
    {
      firmaEklemeHatasi := "";
      if FieldsMissing(yeniFirmaAdi, yeniFirmaVKN) {
        firmaEklemeHatasi := FIELDS_REQUIRED;
        return None;
      }
      request := Some((yeniFirmaAdi, yeniFirmaVKN));
      match response
      case Ok(yeniEklenenFirma) =>
        AddCreated(yeniEklenenFirma, le);
      case Err(e) =>
        firmaEklemeHatasi := MessageOr(e, CREATE_FAILED);
    }

    /** What a successful create does: the new firm joins the sorted list, and the form is emptied and hidden. */
    method AddCreated(yeniEklenenFirma: Firma, le: (string, string) -> bool)
      requires TotalPreorder(le)
      modifies this`firmalar, this`yeniFirmaAdi, this`yeniFirmaVKN, this`firmaEklemeFormuGorunur
      ensures firmalar == WithCreated(yeniEklenenFirma, old(firmalar), le)
      ensures yeniFirmaAdi == "" && yeniFirmaVKN == "" && !firmaEklemeFormuGorunur
    {
      firmalar := WithCreated(yeniEklenenFirma, firmalar, le);
      yeniFirmaAdi, yeniFirmaVKN := "", "";
      firmaEklemeFormuGorunur := false;
    }

    /**
     * `handleFirmaSil`: only after the user confirms is the delete sent; on success exactly the
     * entries with another id remain, in order. A failure raises an alert and changes nothing.
     */
    method HandleFirmaSil(firmaId: int, confirmed: bool, response: Response<()>)
      returns (requested: bool, alert: Option<string>)
      modifies this`firmalar
      ensures requested == confirmed
      ensures confirmed && response.Ok? ==> firmalar == WithoutId(old(firmalar), firmaId) && alert == None
      ensures !(confirmed && response.Ok?) ==> firmalar == old(firmalar)
      ensures confirmed && response.Err? ==> alert == Some(MessageOr(response.error, DELETE_FAILED))
      ensures !confirmed ==> alert == None
    {
      requested, alert := confirmed, None;
      if confirmed {
        match response
        case Ok(_) =>
          firmalar := WithoutId(firmalar, firmaId);
        case Err(e) =>
          alert := Some(MessageOr(e, DELETE_FAILED));
      }
    }
  }
}
