/**
 * `RestaurantsService.bootstrap`: creates a restaurant together with its first
 * administrator. It is open while no restaurant exists; afterwards it needs the
 * configured bootstrap secret. Password hashing is not part of this model: the hash is
 * a parameter.
 */
module Restaurants {
  import opened Common
  import opened Contracts
  import opened Db

  /**
   * `BootstrapDto`. Validation guarantees non-empty name, e-mail and admin name; the
   * password itself only reaches the model as its hash.
   */
  datatype BootstrapDto = BootstrapDto(
    restaurantName: string, adminEmail: string, adminName: string,
    adminRole: Option<Role>, bootstrapSecret: Option<string>)

  datatype RestaurantSummary = RestaurantSummary(id: Id, name: string)
  datatype AdminSummary = AdminSummary(id: Id, email: string, name: string, role: Role)

  /** `BootstrapResponseDto`. */
  datatype BootstrapResponse = BootstrapResponse(restaurant: RestaurantSummary, admin: AdminSummary, message: string)

  const FORBIDDEN_MESSAGE: string := "Bootstrap is only allowed for the first restaurant or with a valid bootstrap secret"
  const CREATED_MESSAGE: string := "Restaurant and admin user created successfully"

  /** `hasSecret`: a configured, non-empty secret equal to the supplied one. */
  predicate HasSecret(configured: Option<string>, supplied: Option<string>) {
    configured.Some? && configured.value != "" && supplied == configured
  }

  /** The gate: a valid secret, or no restaurant yet. */
  predicate BootstrapAllowed(configured: Option<string>, supplied: Option<string>, restaurantCount: nat) {
    HasSecret(configured, supplied) || restaurantCount == 0
  }

  /**
   * Without a configured secret (or with an empty one) only the first restaurant can be
   * bootstrapped, whatever secret the caller sends; with one, a caller who does not
   * send it is refused once a restaurant exists.
   */
  lemma GateNeedsConfiguredSecret(configured: Option<string>, supplied: Option<string>, restaurantCount: nat)
    ensures configured.None? || configured == Some("") ==>
      (BootstrapAllowed(configured, supplied, restaurantCount) <==> restaurantCount == 0)
    ensures restaurantCount > 0 && supplied != configured ==> !BootstrapAllowed(configured, supplied, restaurantCount)
    ensures configured.Some? && configured.value != "" && supplied == configured ==>
      BootstrapAllowed(configured, supplied, restaurantCount)
  {
  }

  /** `findFirst({ where: { email } })` finds a user, in any restaurant. */
  predicate EmailTaken(users: map<Id, User>, email: string) {
    exists u :: u in users && users[u].email == email
  }

  class RestaurantsService {
    const db: Database
    /** `BOOTSTRAP_SECRET` from the configuration. */
    const bootstrapSecret: Option<string>

    constructor (db: Database, bootstrapSecret: Option<string>)
      ensures this.db == db && this.bootstrapSecret == bootstrapSecret
    {
      this.db := db;
      this.bootstrapSecret := bootstrapSecret;
    }

    /** The transaction of `bootstrap`: the restaurant row, then its admin row. */
    method CreateRestaurantAndAdmin(dto: BootstrapDto, passwordHash: string) returns (restaurant: Restaurant, admin: User)
      requires db.Valid() && !EmailTaken(db.users, dto.adminEmail)
      modifies db`restaurants, db`users, db`nextId
      ensures db.Valid()
      ensures restaurant == Restaurant(old(db.nextId), dto.restaurantName, ACTIVE)
      ensures admin == User(old(db.nextId) + 1, restaurant.id, dto.adminName, dto.adminEmail, passwordHash,
        dto.adminRole.GetOr(ADMIN), true)
      ensures restaurant.id !in old(db.restaurants) && admin.id !in old(db.users)
      ensures db.restaurants == old(db.restaurants)[restaurant.id := restaurant]
      ensures db.users == old(db.users)[admin.id := admin]
    {
      var restaurantId := db.FreshId();
      restaurant := Restaurant(restaurantId, dto.restaurantName, ACTIVE);
      db.PutRestaurant(restaurant);
      var adminId := db.FreshId();
      admin := User(adminId, restaurantId, dto.adminName, dto.adminEmail, passwordHash,
        dto.adminRole.GetOr(ADMIN), true);
      db.PutUser(admin);
    }

    /**
     * `bootstrap`: Forbidden when the gate is closed, Conflict when the e-mail is used by
     * any user; both leave the database as it was. Otherwise one ACTIVE restaurant and
     * one active user of that restaurant, ADMIN unless another role is given, and the
     * response echoes both.
     */
    method Bootstrap(dto: BootstrapDto, passwordHash: string) returns (r: Result<BootstrapResponse, HttpError>)
      requires db.Valid()
      requires dto.restaurantName != "" && dto.adminEmail != "" && dto.adminName != ""
      modifies db`restaurants, db`users, db`nextId
      ensures db.Valid()
      ensures !BootstrapAllowed(bootstrapSecret, dto.bootstrapSecret, |old(db.restaurants)|) ==>
        r == Err(Forbidden(FORBIDDEN_MESSAGE)) && unchanged(db)
      ensures (BootstrapAllowed(bootstrapSecret, dto.bootstrapSecret, |old(db.restaurants)|) &&
        EmailTaken(old(db.users), dto.adminEmail)) ==>
        r == Err(Conflict("Email already exists")) && unchanged(db)
      ensures (BootstrapAllowed(bootstrapSecret, dto.bootstrapSecret, |old(db.restaurants)|) &&
        !EmailTaken(old(db.users), dto.adminEmail)) ==>
        var restaurant := Restaurant(old(db.nextId), dto.restaurantName, ACTIVE);
        var admin := User(old(db.nextId) + 1, restaurant.id, dto.adminName, dto.adminEmail, passwordHash,
          dto.adminRole.GetOr(ADMIN), true);
        restaurant.id !in old(db.restaurants) && admin.id !in old(db.users) &&
        db.restaurants == old(db.restaurants)[restaurant.id := restaurant] &&
        db.users == old(db.users)[admin.id := admin] &&
        r == Ok(BootstrapResponse(RestaurantSummary(restaurant.id, restaurant.name),
          AdminSummary(admin.id, admin.email, admin.name, admin.role), CREATED_MESSAGE))
    {
      var hasSecret := HasSecret(bootstrapSecret, dto.bootstrapSecret);
      var isFirstRestaurant := |db.restaurants| == 0;
      if !hasSecret && !isFirstRestaurant {
        return Err(Forbidden(FORBIDDEN_MESSAGE));
      }
      if EmailTaken(db.users, dto.adminEmail) {
        return Err(Conflict("Email already exists"));
      }
      var restaurant, admin := CreateRestaurantAndAdmin(dto, passwordHash);
      r := Ok(BootstrapResponse(RestaurantSummary(restaurant.id, restaurant.name),
        AdminSummary(admin.id, admin.email, admin.name, admin.role), CREATED_MESSAGE));
    }
  }
}
