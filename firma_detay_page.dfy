/**
 * The firm detail page: loading the firm and its financial periods, fetching the analysis of a
 * period, and uploading a CSV file. Every failure shows its message and, on 401 or 422, logs the
 * session out; every loading flag ends false once its call has finished.
 */
module FirmaDetayPage {
  import opened Wrappers
  import opened Http
  import opened AuthService
  import opened AuthContext
  import opened FirmaList

  const LOADING_TEXT := "Firma bilgileri yükleniyor..."
  const NOT_FOUND_TEXT := "Firma bulunamadı."
  const DETAY_FAILED := "Firma detayları yüklenirken bir hata oluştu."
  const VERILER_FAILED := "Finansal veri dönemleri yüklenirken bir hata oluştu."
  const NO_FILE := "Lütfen bir CSV dosyası seçin."
  const NO_FIRMA_ID := "Firma ID bulunamadı."
  const UPLOAD_FAILED := "Dosya yüklenirken bir hata oluştu."
  const UPLOAD_DONE := "Finansal veriler başarıyla yüklendi!"

  /** The fallback message of a failed analysis names the period asked for. */
  function AnalizFailed(donem: string): string {
    "Dönem '" + donem + "' için analiz getirilirken hata oluştu."
  }

  /** One stored financial period, as `GET /firmalar/{id}/finansal_veriler` lists them. */
  datatype FinansalVeri = FinansalVeri(donem: string)

  /** The server's analysis of one period; only displayed here. */
  datatype AnalizSonucu = AnalizSonucu(analizDonemi: string)

  /** A file picked in the file input. */
  datatype CsvFile = CsvFile(name: string)

  /** The `data` of a successful upload. */
  datatype UploadBody = UploadBody(msg: Option<string>)

  /** `data || []`: the periods shown for an answer, none for a null one. */
  function ListedPeriods(data: Option<seq<FinansalVeri>>): (r: seq<FinansalVeri>)
    ensures data.Some? ==> r == data.value
    ensures data.None? ==> r == []
  {
    if data.Some? then data.value else []
  }

  /** What the page renders, by precedence. */
  datatype DetayOutcome = Loading | FirmaError(msg: string) | NotFound | Content(firma: Firma)

  /** Loading first, then a non-empty error, then "not found" for a null firm, then the content. */
  function View(isLoadingFirma: bool, errorFirma: string, firma: Option<Firma>): (v: DetayOutcome)
    ensures v == Loading <==> isLoadingFirma
    ensures v.FirmaError? <==> !isLoadingFirma && errorFirma != ""
    ensures v.FirmaError? ==> v.msg == errorFirma
    ensures v == NotFound <==> !isLoadingFirma && errorFirma == "" && firma.None?
    ensures v.Content? <==> !isLoadingFirma && errorFirma == "" && firma.Some?
    ensures v.Content? ==> firma == Some(v.firma)
  {
    if isLoadingFirma then Loading
    else if errorFirma != "" then FirmaError(errorFirma)
    else if firma.None? then NotFound
    else Content(firma.value)
  }

  class FirmaDetay {
    const auth: AuthProvider
    /** The `firmaId` route parameter (`useParams`); falsy when missing or empty. */
    const firmaId: Option<string>

    var firma: Option<Firma>
    var finansalVeriDonemleri: seq<FinansalVeri>
    var seciliDonem: string
    var analizSonuclari: Option<AnalizSonucu>
    var selectedFile: Option<CsvFile>

    var isLoadingFirma: bool
    var isLoadingVeriler: bool
    var isLoadingAnaliz: bool
    var isLoadingUpload: bool

    var errorFirma: string
    var errorVeriler: string
    var errorAnaliz: string
    var errorUpload: string
    var successUpload: string

    /** The page as it mounts: only the firm's own loading flag is set. */
    constructor (auth: AuthProvider, firmaId: Option<string>)
      ensures this.auth == auth && this.firmaId == firmaId
      ensures firma == None && finansalVeriDonemleri == [] && seciliDonem == "" && analizSonuclari == None && selectedFile == None
      ensures isLoadingFirma && !isLoadingVeriler && !isLoadingAnaliz && !isLoadingUpload
      ensures errorFirma == "" && errorVeriler == "" && errorAnaliz == "" && errorUpload == "" && successUpload == ""
    {
      this.auth := auth;
      this.firmaId := firmaId;
      firma := None;
      finansalVeriDonemleri := [];
      seciliDonem := "";
      analizSonuclari := None;
      selectedFile := None;
      isLoadingFirma := true;
      isLoadingVeriler := false;
      isLoadingAnaliz := false;
      isLoadingUpload := false;
      errorFirma := "";
      errorVeriler := "";
      errorAnaliz := "";
      errorUpload := "";
      successUpload := "";
    }

    /** `fetchFirmaDetay`: without a `firmaId` nothing happens; otherwise the firm, or the error, is shown. */
    method FetchFirmaDetay(response: Response<Option<Firma>>) returns (requested: bool)
      requires auth.Valid()
      modifies this`firma, this`isLoadingFirma, this`errorFirma, auth, auth.store
      ensures auth.Valid()
      ensures requested <==> Truthy(firmaId)
      ensures !requested ==> unchanged(this) && unchanged(auth) && unchanged(auth.store)
      ensures requested ==> !isLoadingFirma && View(isLoadingFirma, errorFirma, firma) != Loading
      ensures requested && response.Ok? ==> firma == response.value && errorFirma == ""
      ensures requested && response.Ok? ==> unchanged(auth) && unchanged(auth.store)
      ensures requested && response.Err? ==> firma == old(firma) && errorFirma == MessageOr(response.error, DETAY_FAILED)
      ensures requested && response.Err? ==> auth.Snapshot() == AfterFailedCall(old(auth.Snapshot()), response.error) && auth.isLoading == old(auth.isLoading)
      ensures requested && response.Err? ==> View(isLoadingFirma, errorFirma, firma).FirmaError?
    {
      if !Truthy(firmaId) {
        return false;
      }
      requested := true;
      isLoadingFirma := true;
      errorFirma := "";
      match response {
        case Ok(data) =>
          firma := data;
        case Err(e) =>
          errorFirma := MessageOr(e, DETAY_FAILED);
          if IsAuthFailure(e) {
            auth.Logout();
          }
      }
      isLoadingFirma := false;
    }

    /** `fetchFinansalVeriDonemleri`: without a `firmaId` nothing happens; otherwise the periods, or the error. */
    method FetchFinansalVeriDonemleri(response: Response<Option<seq<FinansalVeri>>>) returns (requested: bool)
      requires auth.Valid()
      modifies this`finansalVeriDonemleri, this`isLoadingVeriler, this`errorVeriler, auth, auth.store
      ensures auth.Valid()
      ensures requested <==> Truthy(firmaId)
      ensures !requested ==> unchanged(this) && unchanged(auth) && unchanged(auth.store)
      ensures requested ==> !isLoadingVeriler
      ensures requested && response.Ok? ==> finansalVeriDonemleri == ListedPeriods(response.value) && errorVeriler == ""
      ensures requested && response.Ok? ==> unchanged(auth) && unchanged(auth.store)
      ensures requested && response.Err? ==> finansalVeriDonemleri == old(finansalVeriDonemleri)
      ensures requested && response.Err? ==> errorVeriler == MessageOr(response.error, VERILER_FAILED)
      ensures requested && response.Err? ==> auth.Snapshot() == AfterFailedCall(old(auth.Snapshot()), response.error) && auth.isLoading == old(auth.isLoading)
    {
      if !Truthy(firmaId) {
        return false;
      }
      requested := true;
      isLoadingVeriler := true;
      errorVeriler := "";
      match response {
        case Ok(data) =>
          finansalVeriDonemleri := ListedPeriods(data);
        case Err(e) =>
          errorVeriler := MessageOr(e, VERILER_FAILED);
          if IsAuthFailure(e) {
            auth.Logout();
          }
      }
      isLoadingVeriler := false;
    }

    /**
     * `handleAnalizGetir`: nothing without a `firmaId` or a period. Otherwise the period is
     * selected and the previous result cleared before the request; then the result or the error.
     */
    method HandleAnalizGetir(donem: string, response: Response<Option<AnalizSonucu>>) returns (requested: bool)
      requires auth.Valid()
      modifies this`seciliDonem, this`isLoadingAnaliz, this`errorAnaliz, this`analizSonuclari, auth, auth.store
      ensures auth.Valid()
      ensures requested <==> Truthy(firmaId) && donem != ""
      ensures !requested ==> unchanged(this) && unchanged(auth) && unchanged(auth.store)
      ensures requested ==> seciliDonem == donem && !isLoadingAnaliz
      ensures requested && response.Ok? ==> analizSonuclari == response.value && errorAnaliz == ""
      ensures requested && response.Ok? ==> unchanged(auth) && unchanged(auth.store)
      ensures requested && response.Err? ==> analizSonuclari == None && errorAnaliz == MessageOr(response.error, AnalizFailed(donem))
      ensures requested && response.Err? ==> auth.Snapshot() == AfterFailedCall(old(auth.Snapshot()), response.error) && auth.isLoading == old(auth.isLoading)
    {
      if !Truthy(firmaId) || donem == "" {
        return false;
      }
      requested := true;
      seciliDonem := donem;
      isLoadingAnaliz := true;
      errorAnaliz := "";
      analizSonuclari := None;
      match response {
        case Ok(data) =>
          analizSonuclari := data;
        case Err(e) =>
          errorAnaliz := MessageOr(e, AnalizFailed(donem));
          if IsAuthFailure(e) {
            auth.Logout();
          }
      }
      isLoadingAnaliz := false;
    }

    /** `handleFileChange`: the picked file (none if the picker was emptied), with both upload messages cleared. */
    method HandleFileChange(file: Option<CsvFile>)
      modifies this`selectedFile, this`errorUpload, this`successUpload
      ensures selectedFile == file && errorUpload == "" && successUpload == ""
    {
      selectedFile := file;
      errorUpload := "";
      successUpload := "";
    }

    /**
     * The steps after an accepted upload: the notice, the file cleared, the periods fetched again
     * (`periods` is that answer), and the previous analysis and period cleared.
     */
    method AfterUpload(msg: Option<string>, periods: Response<Option<seq<FinansalVeri>>>)
      requires auth.Valid() && Truthy(firmaId)
      modifies this`selectedFile, this`successUpload, this`analizSonuclari, this`seciliDonem,
        this`finansalVeriDonemleri, this`isLoadingVeriler, this`errorVeriler, auth, auth.store
      ensures auth.Valid()
      ensures successUpload == OrElse(msg, UPLOAD_DONE)
      ensures selectedFile == None && analizSonuclari == None && seciliDonem == "" && !isLoadingVeriler
      ensures periods.Ok? ==>
        && finansalVeriDonemleri == ListedPeriods(periods.value) && errorVeriler == ""
        && unchanged(auth) && unchanged(auth.store)
      ensures periods.Err? ==>
        && finansalVeriDonemleri == old(finansalVeriDonemleri)
        && errorVeriler == MessageOr(periods.error, VERILER_FAILED)
        && auth.Snapshot() == AfterFailedCall(old(auth.Snapshot()), periods.error) && auth.isLoading == old(auth.isLoading)
    {
      successUpload := OrElse(msg, UPLOAD_DONE);
      selectedFile := None;
      var refetched := FetchFinansalVeriDonemleri(periods);
      analizSonuclari := None;
      seciliDonem := "";
    }

    /**
     * `handleFileUpload`: with no file, or no `firmaId`, an error and no request. Otherwise the file
     * is sent; on success the notice is shown, the file, the result and the period are cleared, and
     * the periods fetched again (`periods` is that second answer). A failure shows its message.
     */
    method HandleFileUpload(response: Response<UploadBody>, periods: Response<Option<seq<FinansalVeri>>>)
      returns (requested: bool)
      requires auth.Valid()
      modifies this`selectedFile, this`isLoadingUpload, this`errorUpload, this`successUpload,
        this`analizSonuclari, this`seciliDonem,
        this`finansalVeriDonemleri, this`isLoadingVeriler, this`errorVeriler, auth, auth.store
      ensures auth.Valid()
      ensures requested <==> old(selectedFile).Some? && Truthy(firmaId)
      ensures old(selectedFile).None? ==> errorUpload == NO_FILE
      ensures old(selectedFile).Some? && !Truthy(firmaId) ==> errorUpload == NO_FIRMA_ID
      ensures !requested ==>
        && unchanged(auth) && unchanged(auth.store)
        && unchanged(this`selectedFile, this`isLoadingUpload, this`successUpload, this`analizSonuclari, this`seciliDonem)
        && unchanged(this`finansalVeriDonemleri, this`isLoadingVeriler, this`errorVeriler)
      ensures requested ==> !isLoadingUpload
      ensures requested && response.Ok? ==>
        && successUpload == OrElse(response.value.msg, UPLOAD_DONE) && errorUpload == ""
        && selectedFile == None && analizSonuclari == None && seciliDonem == ""
        && !isLoadingVeriler
      ensures requested && response.Ok? && periods.Ok? ==>
        && finansalVeriDonemleri == ListedPeriods(periods.value) && errorVeriler == ""
        && unchanged(auth) && unchanged(auth.store)
      ensures requested && response.Ok? && periods.Err? ==>
        && finansalVeriDonemleri == old(finansalVeriDonemleri)
        && errorVeriler == MessageOr(periods.error, VERILER_FAILED)
        && auth.Snapshot() == AfterFailedCall(old(auth.Snapshot()), periods.error) && auth.isLoading == old(auth.isLoading)
      ensures requested && response.Err? ==>
        && errorUpload == MessageOr(response.error, UPLOAD_FAILED) && successUpload == ""
        && selectedFile == old(selectedFile) && analizSonuclari == old(analizSonuclari) && seciliDonem == old(seciliDonem)
        && unchanged(this`finansalVeriDonemleri, this`isLoadingVeriler, this`errorVeriler)
        && auth.Snapshot() == AfterFailedCall(old(auth.Snapshot()), response.error) && auth.isLoading == old(auth.isLoading)
    {
      if selectedFile.None? {
        errorUpload := NO_FILE;
        return false;
      }
      if !Truthy(firmaId) {
        errorUpload := NO_FIRMA_ID;
        return false;
      }
      requested := true;
      isLoadingUpload := true;
      errorUpload := "";
      successUpload := "";
      match response {
        case Ok(body) =>
          AfterUpload(body.msg, periods);
        case Err(e) =>
          errorUpload := MessageOr(e, UPLOAD_FAILED);
          if IsAuthFailure(e) {
            auth.Logout();
          }
      }
      isLoadingUpload := false;
    }
  }
}
