/**
 * Input validators and the list projection of plans. A validator either
 * returns its input unchanged or fails with a validation error attached to
 * a field; a query over the user table is a scan of the sequence of users.
 */
module Serializers {
  import opened Wrappers
  import opened Models

  /** A validation error, reported under the field it concerns. */
  datatype ValidationError = ValidationError(field: string, message: string)

  const PasswordMismatch: string := "Password fields didn't match."
  const EmailTaken: string := "A user with that email already exists."

  /** The fields a sign-up request carries; the two names are optional. */
  datatype SignUpInput = SignUpInput(
    username: string,
    email: string,
    firstName: Option<string>,
    lastName: Option<string>,
    password: string,
    passwordConfirm: string)

  /** Sign-up object-level validation: the password must be typed twice alike. */
  function ValidateSignUp(data: SignUpInput): (r: Result<SignUpInput, ValidationError>)
    ensures r.Failure? <==> data.password != data.passwordConfirm
    ensures r.Failure? ==> r.error == ValidationError("password", PasswordMismatch)
    ensures r.Success? ==> r.value == data
  {
    if data.password != data.passwordConfirm then
      Failure(ValidationError("password", PasswordMismatch))
    else
      Success(data)
  }

  /**
   * `User.objects.filter(email=email)`, with `.exclude(pk=id)` when
   * `excluded` is `Some(id)`, followed by `.exists()`.
   */
  function EmailInUse(users: seq<User>, email: string, excluded: Option<nat>): (b: bool)
    ensures b <==> exists i :: 0 <= i < |users| && users[i].email == email && excluded != Some(users[i].id)
  {
    if |users| == 0 then false
    else
      (users[0].email == email && excluded != Some(users[0].id))
      || EmailInUse(users[1..], email, excluded)
  }

  /** Sign-up field validation of `email`: no existing user may hold it. */
  function ValidateSignUpEmail(users: seq<User>, value: string): (r: Result<string, ValidationError>)
    ensures r.Failure? <==> exists u :: u in users && u.email == value
    ensures r.Failure? ==> r.error == ValidationError("email", EmailTaken)
    ensures r.Success? ==> r.value == value
  {
    if EmailInUse(users, value, None) then
      Failure(ValidationError("email", EmailTaken))
    else
      Success(value)
  }

  /**
   * User serializer field validation of `email`. On an update (`instance`
   * present) the user being updated is left out of the search, matched by
   * its primary key.
   */
  function ValidateUserEmail(users: seq<User>, instance: Option<User>, value: string): (r: Result<string, ValidationError>)
    ensures r.Failure? <==>
      exists u :: u in users && u.email == value && (instance == None || u.id != instance.value.id)
    ensures r.Failure? ==> r.error == ValidationError("email", EmailTaken)
    ensures r.Success? ==> r.value == value
  {
    var excluded := if instance == None then None else Some(instance.value.id);
    if EmailInUse(users, value, excluded) then
      Failure(ValidationError("email", EmailTaken))
    else
      Success(value)
  }

  /** Without an instance, the user serializer applies the sign-up rule. */
  lemma UserEmailOnCreate(users: seq<User>, value: string)
    ensures ValidateUserEmail(users, None, value) == ValidateSignUpEmail(users, value)
  {
  }

  /** A user who keeps an email that no other user holds passes validation. */
  lemma UserKeepsOwnEmail(users: seq<User>, me: User)
    requires forall u :: u in users && u.email == me.email ==> u.id == me.id
    ensures ValidateUserEmail(users, Some(me), me.email) == Success(me.email)
  {
  }

  /** An email held by any other user is rejected, on create and on update alike. */
  lemma UserEmailClash(users: seq<User>, instance: Option<User>, other: User, value: string)
    requires other in users && other.email == value
    requires instance == None || instance.value.id != other.id
    ensures ValidateUserEmail(users, instance, value) == Failure(ValidationError("email", EmailTaken))
  {
  }

  // The lightweight plan listing: `fields = ['id', 'name', 'price', 'billing_cycle']`.

  datatype FieldValue = Number(n: int) | Text(s: string)

  const PlanListFields: seq<string> := ["id", "name", "price", "billing_cycle"]

  /** One listed plan, as the ordered field/value pairs of the serializer's output. */
  function PlanListItem(p: Plan): (item: seq<(string, FieldValue)>)
    ensures |item| == |PlanListFields|
    ensures forall i :: 0 <= i < |item| ==> item[i].0 == PlanListFields[i]
    ensures item[0].1 == Number(p.id) && item[1].1 == Text(p.name) && item[2].1 == Number(p.price)
    ensures item[3].1 == Text(BillingCycleValue(p.billingCycle))
  {
    [("id", Number(p.id)),
     ("name", Text(p.name)),
     ("price", Number(p.price)),
     ("billing_cycle", Text(BillingCycleValue(p.billingCycle)))]
  }

  /**
   * Two plans are listed alike exactly when they agree on the four listed
   * fields: the listing depends on nothing else (not on the description,
   * the features or the active flag) and loses none of those four.
   */
  lemma PlanListItemFields(p: Plan, q: Plan)
    ensures PlanListItem(p) == PlanListItem(q) <==>
      p.id == q.id && p.name == q.name && p.price == q.price && p.billingCycle == q.billingCycle
  {
    if PlanListItem(p) == PlanListItem(q) {
      assert PlanListItem(p)[3] == PlanListItem(q)[3];
      assert PlanListItem(p)[1] == PlanListItem(q)[1];
      ChoiceValuesInjective(Active, Active, p.billingCycle, q.billingCycle);
    }
  }

  /** The plan listing of a table: one item per plan, in table order. */
  function PlanList(plans: seq<Plan>): (items: seq<seq<(string, FieldValue)>>)
    ensures |items| == |plans|
    ensures forall i :: 0 <= i < |plans| ==> items[i] == PlanListItem(plans[i])
  {
    if |plans| == 0 then [] else [PlanListItem(plans[0])] + PlanList(plans[1..])
  }
}
