/**
 * The business owner's dashboard: a role guard, tab selection, and an edit mode over the
 * business profile in which five text fields can be changed one at a time. Saving and
 * replying to reviews only show toasts. Ratings are integer tenths.
 */
module BusinessDashboard {
  import opened Wrappers
  import opened Auth
  import opened Toasts

  datatype Hours = Hours(
    monday: string, tuesday: string, wednesday: string, thursday: string,
    friday: string, saturday: string, sunday: string)

  datatype BusinessData = BusinessData(
    id: string,
    name: string,
    category: string,
    ratingTenths: nat,
    reviewCount: nat,
    totalViews: nat,
    totalClicks: nat,
    description: string,
    address: string,
    phone: string,
    website: string,
    hours: Hours,
    images: seq<string>,
    isVerified: bool,
    isPremium: bool)

  const MockBusinessData: BusinessData := BusinessData(
    "1", "Sharma Ji Ka Dhaba", "Restaurant", 48, 1247, 15670, 892,
    "Authentic North Indian cuisine served with love and tradition. Famous for our butter chicken, dal makhani, and fresh naan bread.",
    "123 Connaught Place, New Delhi, 110001", "+91 98765 43210", "www.sharmajikdhaba.com",
    Hours("10:00 AM - 11:00 PM", "10:00 AM - 11:00 PM", "10:00 AM - 11:00 PM", "10:00 AM - 11:00 PM",
      "10:00 AM - 12:00 AM", "10:00 AM - 12:00 AM", "10:00 AM - 11:00 PM"),
    ["/placeholder.svg?height=200&width=300"], true, false)

  datatype DashboardReview = DashboardReview(
    id: string, user: string, rating: nat, date: string, text: string,
    hasResponse: bool, response: Option<string>)

  const MockRecentReviews: seq<DashboardReview> := [
    DashboardReview("1", "Priya Sharma", 5, "2 days ago",
      "Absolutely amazing experience! The butter chicken here is to die for.", false, None),
    DashboardReview("2", "Amit Kumar", 4, "1 week ago",
      "Good food and reasonable prices. Service could be faster.", true,
      Some("Thank you for your feedback! We're working on improving our service speed."))
  ]

  const Tabs: seq<string> := ["overview", "business", "reviews", "promote", "settings"]

  const UpdatedToast: ToastRequest := Titled("Business Updated! \U{1F389}", "Your business information has been updated successfully.")
  const ResponseToast: ToastRequest := Titled("Response Posted! \U{1F4AC}", "Your response has been posted to the review.")

  // ---------------------------------------------------------------------------
  // Guard

  /** The effect's redirect: anyone but a signed-in business owner is sent to the business login. */
  function GuardRoute(user: Option<User>): (route: Option<string>)
    ensures route.None? <==> user.Some? && user.value.role == BusinessRole
    ensures route.Some? ==> route.value == "/business/login"
  {
    if user.None? || user.value.role != BusinessRole then Some("/business/login") else None
  }

  /** The page body is rendered whenever someone is signed in. */
  predicate Renders(user: Option<User>) {
    user.Some?
  }

  /**
   * Nothing is rendered without a user; a signed-in user of another role is both
   * redirected and, until the navigation happens, shown the dashboard.
   */
  lemma GuardAndRender(user: Option<User>)
    ensures !Renders(user) ==> GuardRoute(user).Some?
    ensures Renders(user) && GuardRoute(user).Some? <==> user.Some? && user.value.role != BusinessRole
  {
  }

  // ---------------------------------------------------------------------------
  // Profile fields

  /** The inputs that have a change handler. */
  datatype EditField = Name | Description | Phone | Website | Address

  function Get(d: BusinessData, f: EditField): string {
    match f
    case Name => d.name
    case Description => d.description
    case Phone => d.phone
    case Website => d.website
    case Address => d.address
  }

  /** `setBusinessData({ ...businessData, [f]: value })`: only that field changes. */
  function WithEdit(d: BusinessData, f: EditField, value: string): (r: BusinessData)
    ensures Get(r, f) == value
    ensures forall g :: g != f ==> Get(r, g) == Get(d, g)
    ensures r.category == d.category && r.hours == d.hours && r.id == d.id && r.images == d.images
    ensures r.ratingTenths == d.ratingTenths && r.reviewCount == d.reviewCount
  {
    match f
    case Name => d.(name := value)
    case Description => d.(description := value)
    case Phone => d.(phone := value)
    case Website => d.(website := value)
    case Address => d.(address := value)
  }

  /** Two edits of the same field: the last one wins. */
  lemma LastEditWins(d: BusinessData, f: EditField, v1: string, v2: string)
    ensures WithEdit(WithEdit(d, f, v1), f, v2) == WithEdit(d, f, v2)
  {
  }

  /** Edits of different fields do not interfere: their order does not matter. */
  lemma EditsCommute(d: BusinessData, f: EditField, g: EditField, v: string, w: string)
    requires f != g
    ensures WithEdit(WithEdit(d, f, v), g, w) == WithEdit(WithEdit(d, g, w), f, v)
  {
  }

  // ---------------------------------------------------------------------------
  // Page state

  class BusinessDashboardPage {
    var activeTab: string
    var businessData: BusinessData
    var isEditing: bool

    constructor ()
      ensures activeTab == "overview" && businessData == MockBusinessData && !isEditing
    {
      activeTab := "overview";
      businessData := MockBusinessData;
      isEditing := false;
    }

    method SelectTab(id: string)
      modifies this`activeTab
      ensures activeTab == id
    {
      activeTab := id;
    }

    /** The "Edit Info" / "Cancel" button in the card header. */
    method ToggleEditing()
      modifies this`isEditing
      ensures isEditing == !old(isEditing)
    {
      isEditing := !isEditing;
    }

    /** Typing into a profile input; a disabled input (not editing) takes no input. */
    method EditBusinessField(f: EditField, value: string)
      modifies this`businessData
      ensures old(isEditing) ==> businessData == WithEdit(old(businessData), f, value)
      ensures !old(isEditing) ==> businessData == old(businessData)
      ensures businessData.category == old(businessData.category) && businessData.hours == old(businessData.hours)
    {
      if isEditing {
        businessData := WithEdit(businessData, f, value);
      }
    }

    /** The footer's "Cancel": edit mode ends and the edits made so far stay. */
    method Cancel()
      modifies this`isEditing
      ensures !isEditing && businessData == old(businessData)
    {
      isEditing := false;
    }

    /** `handleSaveBusinessInfo`: edit mode ends with a toast; the data is neither changed nor sent. */
    method SaveBusinessInfo(toasts: ToastProvider, toastId: string)
      modifies this`isEditing, toasts
      ensures !isEditing && businessData == old(businessData)
      ensures toasts.toasts == old(toasts.toasts) + [WithId(UpdatedToast, toastId)]
    {
      isEditing := false;
      toasts.Toast(UpdatedToast, toastId);
    }

    /** `handleReviewResponse`: only a toast; no review and no `hasResponse` changes. */
    method ReviewResponse(toasts: ToastProvider, toastId: string, reviewId: string, response: string)
      modifies toasts
      ensures toasts.toasts == old(toasts.toasts) + [WithId(ResponseToast, toastId)]
    {
      toasts.Toast(ResponseToast, toastId);
    }
  }
}
