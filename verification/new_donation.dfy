/**
 * The "new donation" form (src/app/new-donation/page.tsx): its schema, the
 * image hint derived from the title, and the submit procedure.
 *
 * The image upload is an input: the URL the upload service answered, or
 * None when it failed. String lengths count characters.
 */
module NewDonation {
  import opened Types
  import opened Text
  import opened Db
  import Donations
  import UseDonations

  // ---------------------------------------------------------------------
  // The schema

  /** One selected file: its size in bytes and its MIME type. */
  datatype FileInfo = FileInfo(size: int, mimeType: string)

  datatype FormValues = FormValues(title: string, description: string, contact: string, image: seq<FileInfo>)

  const MinTitleLength: nat := 3
  const MinDescriptionLength: nat := 10
  const MinContactLength: nat := 3
  const MaxImageSize: int := 5000000
  const AcceptedTypes: seq<string> := ["image/jpeg", "image/jpg", "image/png", "image/webp"]

  datatype FormIssue =
    | TitleTooShort         // "Le titre doit contenir au moins 3 caractères."
    | DescriptionTooShort   // "La description doit contenir au moins 10 caractères."
    | ContactMissing        // "Veuillez fournir une information de contact."
    | ImageRequired         // "Une image est requise."
    | ImageTooLarge         // "La taille maximale de l'image est 5MB."
    | ImageWrongType        // "Formats de fichier acceptés: .jpg, .jpeg, .png, .webp"

  /**
   * The size check on the first file. Without a file the comparison is
   * made with `undefined` and fails.
   */
  predicate FirstFileSmallEnough(image: seq<FileInfo>)
  {
    |image| >= 1 && image[0].size <= MaxImageSize
  }

  /** The type check on the first file; without a file it fails. */
  predicate FirstFileAccepted(image: seq<FileInfo>)
  {
    |image| >= 1 && image[0].mimeType in AcceptedTypes
  }

  /** Whether the form breaks the rule behind `issue`. */
  predicate Fails(v: FormValues, issue: FormIssue)
  {
    match issue
    case TitleTooShort => |v.title| < MinTitleLength
    case DescriptionTooShort => |v.description| < MinDescriptionLength
    case ContactMissing => |v.contact| < MinContactLength
    case ImageRequired => |v.image| != 1
    case ImageTooLarge => !FirstFileSmallEnough(v.image)
    case ImageWrongType => !FirstFileAccepted(v.image)
  }

  /** Every rule of the schema, in field order. */
  const AllIssues: seq<FormIssue> :=
    [TitleTooShort, DescriptionTooShort, ContactMissing, ImageRequired, ImageTooLarge, ImageWrongType]

  /** The issues of `rules` that the form raises, in order. */
  function Raised(v: FormValues, rules: seq<FormIssue>): (issues: seq<FormIssue>)
    ensures forall e :: e in issues <==> e in rules && Fails(v, e)
  {
    if rules == [] then []
    else (if Fails(v, rules[0]) then [rules[0]] else []) + Raised(v, rules[1..])
  }

  lemma AllIssuesListed()
    ensures forall e :: e in AllIssues
  {
    forall e: FormIssue
      ensures e in AllIssues
    {
      var k := match e
        case TitleTooShort => 0
        case DescriptionTooShort => 1
        case ContactMissing => 2
        case ImageRequired => 3
        case ImageTooLarge => 4
        case ImageWrongType => 5;
      assert AllIssues[k] == e;
    }
  }

  /**
   * `donationSchema`: every broken rule reports its issue, in field order;
   * the three image rules are checked independently of one another.
   */
  function Validate(v: FormValues): (issues: seq<FormIssue>)
    ensures forall e :: e in issues <==> Fails(v, e)
  {
    AllIssuesListed();
    Raised(v, AllIssues)
  }

  /** A form passes exactly when the three texts are long enough and there is one small image of an accepted type. */
  lemma ValidIff(v: FormValues)
    ensures Validate(v) == [] <==>
              && |v.title| >= MinTitleLength && |v.description| >= MinDescriptionLength
              && |v.contact| >= MinContactLength
              && |v.image| == 1 && v.image[0].size <= MaxImageSize && v.image[0].mimeType in AcceptedTypes
  {
    if Validate(v) != [] {
      var e := Validate(v)[0];
      assert e in Validate(v);
    } else {
      assert !Fails(v, TitleTooShort) && !Fails(v, DescriptionTooShort) && !Fails(v, ContactMissing);
      assert !Fails(v, ImageRequired) && !Fails(v, ImageTooLarge) && !Fails(v, ImageWrongType);
    }
  }

  /** With no file at all, all three image issues are reported. */
  lemma NoFileThreeIssues(v: FormValues)
    requires v.image == []
    ensures ImageRequired in Validate(v) && ImageTooLarge in Validate(v) && ImageWrongType in Validate(v)
    ensures |v.title| >= MinTitleLength ==> TitleTooShort !in Validate(v)
  {
    assert Fails(v, ImageRequired) && Fails(v, ImageTooLarge) && Fails(v, ImageWrongType);
  }

  // ---------------------------------------------------------------------
  // The image hint

  /** `title.split(' ').slice(0, 2).join(' ')`, lowercased. */
  function ImageHint(title: string): string
  {
    var pieces := Split(title);
    Lower(Join(pieces[..Min(2, |pieces|)]))
  }

  /** The hint is the start of the lowercased title. */
  lemma HintIsPrefix(title: string)
    ensures IsPrefix(ImageHint(title), Lower(title))
  {
    var pieces := Split(title);
    JoinTakePrefix(pieces, Min(2, |pieces|));
    JoinSplit(title);
    LowerPrefix(Join(pieces[..Min(2, |pieces|)]), title);
  }

  /** A title with at most one space is its own hint, lowercased. */
  lemma HintOfShortTitle(title: string)
    requires Spaces(title) <= 1
    ensures ImageHint(title) == Lower(title)
  {
    var pieces := Split(title);
    SplitCount(title);
    assert pieces[..Min(2, |pieces|)] == pieces;
    JoinSplit(title);
  }

  // ---------------------------------------------------------------------
  // Submitting

  const AuthErrorToast := Toast("Erreur d'authentification", "Vous devez être connecté pour publier un don.")
  const UploadErrorToast := Toast("Erreur de téléversement", "Impossible de téléverser l'image. Veuillez réessayer.")
  const PublishedToast := Toast("Succès!", "Votre don a été publié avec succès.")
  const PublishErrorToast := Toast("Erreur", "Une erreur est survenue lors de la publication de votre don.")

  /** The object `onSubmit` hands to `addDonation`: no status, no flag, no owner, no date. */
  function Payload(v: FormValues, imageUrl: string): (p: Donations.NewDonation)
    ensures p.extraUser.None? && p.extraCreatedAt.None? && p.status.None? && p.isFeatured.None?
    ensures p.title == v.title && p.description == v.description && p.contact == v.contact
    ensures p.imageUrl == imageUrl && p.imageHint == ImageHint(v.title)
  {
    Donations.NewDonation(v.title, v.description, imageUrl, ImageHint(v.title), v.contact, None, None, None, None)
  }

  /** How a submission ended. */
  datatype SubmitOutcome = NoUser | UploadFailed | Published | PublishFailed

  class NewDonationPage {
    var isSubmitting: bool
    var toasts: seq<Toast>
    var route: Option<string>

    constructor ()
      ensures !isSubmitting && toasts == [] && route == None
    {
      isSubmitting := false;
      toasts := [];
      route := None;
    }

    /**
     * `onSubmit`, called by the form only with values the schema accepts.
     * Without a user nothing happens but a toast; a failed upload stops
     * before `addDonation`; a published donation refreshes the feed and
     * goes home. Whatever happens, the form is no longer submitting.
     */
    method OnSubmit(db: Backend, hub: UseDonations.DonationsHub, user: Option<AuthUser>, v: FormValues,
                    upload: Option<string>, newId: string, serverTime: int)
      returns (outcome: SubmitOutcome)
      requires Validate(v) == []
      modifies this, db, hub`isFetching
      ensures user.Some? ==> !isSubmitting
      ensures user.None? ==> isSubmitting == old(isSubmitting)
      ensures db.accounts == old(db.accounts)
      ensures user.None? ==>
                && outcome == NoUser && toasts == old(toasts) + [AuthErrorToast]
                && db.users == old(db.users) && db.donations == old(db.donations) && route == old(route)
                && hub.isFetching == old(hub.isFetching)
      ensures user.Some? && !Truthy(upload) ==>
                && outcome == UploadFailed && toasts == old(toasts) + [UploadErrorToast]
                && db.users == old(db.users) && db.donations == old(db.donations) && route == old(route)
                && hub.isFetching == old(hub.isFetching)
      ensures user.Some? && Truthy(upload) ==>
                var (r, c) := Donations.AddDonationStep(Donations.Collections(old(db.users), old(db.donations)),
                                                        user, Payload(v, upload.value), newId, serverTime);
                && Donations.Collections(db.users, db.donations) == c
                && (r.Ok? ==> outcome == Published && toasts == old(toasts) + [PublishedToast]
                              && route == Some("/home") && hub.isFetching)
                && (r.Err? ==> outcome == PublishFailed && toasts == old(toasts) + [PublishErrorToast]
                               && route == old(route) && hub.isFetching == old(hub.isFetching))
    {
      if user.None? {
        toasts := toasts + [AuthErrorToast];
        return NoUser;
      }
      isSubmitting := true;
      if !Truthy(upload) {
        toasts := toasts + [UploadErrorToast];
        isSubmitting := false;
        return UploadFailed;
      }
      var r := Donations.AddDonation(db, user, Payload(v, upload.value), newId, serverTime);
      if r.Ok? {
        var _ := hub.BeginFetch();
        toasts := toasts + [PublishedToast];
        route := Some("/home");
        outcome := Published;
      } else {
        toasts := toasts + [PublishErrorToast];
        outcome := PublishFailed;
      }
      isSubmitting := false;
    }
  }

  /** A donation published from the form is owned by the signed-in user, whatever the form held. */
  lemma PublishedDonationOwnedBySubmitter(c: Donations.Collections, user: AuthUser, v: FormValues,
                                          imageUrl: string, newId: string, serverTime: int)
    requires user.uid in c.users
    requires Donations.AddDonationStep(c, Some(user), Payload(v, imageUrl), newId, serverTime).0.Ok?
    ensures var c' := Donations.AddDonationStep(c, Some(user), Payload(v, imageUrl), newId, serverTime).1;
            && |c'.donations| == |c.donations| + 1
            && c'.donations[|c.donations|].user.id == user.uid
            && c'.donations[|c.donations|].imageHint == ImageHint(v.title)
            && c'.donations[|c.donations|].status.None?
  {
    Donations.AddDonationCap(c, user, Payload(v, imageUrl), newId, serverTime);
  }
}
