/** The user's profile (components/ProfileScreen.tsx): reward progress and the
    editor for name, level and avatar. */
module ProfileScreen {
  import opened Types
  import opened Collections

  /** A reward is unlocked once the user has completed at least its required classes. */
  predicate IsUnlocked(reward: Reward, classesCompleted: int)
  {
    classesCompleted >= reward.requiredClasses
  }

  /** `rewards.find(r => r.requiredClasses > user.classesCompleted)`. */
  function NextReward(rewards: seq<Reward>, classesCompleted: int): Option<Reward>
  {
    Find(rewards, (r: Reward) => r.requiredClasses > classesCompleted)
  }

  /** The next reward is the first reward in list order that is still locked; there is
      none exactly when every reward is unlocked. */
  lemma NextRewardSpec(rewards: seq<Reward>, classesCompleted: int)
    ensures var next := NextReward(rewards, classesCompleted);
      (next.None? <==> forall i :: 0 <= i < |rewards| ==> IsUnlocked(rewards[i], classesCompleted)) &&
      (next.Some? ==> next.value in rewards && !IsUnlocked(next.value, classesCompleted))
    ensures var k := FindIndex(rewards, (r: Reward) => r.requiredClasses > classesCompleted);
      k.Some? ==> NextReward(rewards, classesCompleted) == Some(rewards[k.value]) &&
                  forall j :: 0 <= j < k.value ==> IsUnlocked(rewards[j], classesCompleted)
  {
  }

  predicate Ascending(rewards: seq<Reward>)
  {
    forall i, j :: 0 <= i < j < |rewards| ==> rewards[i].requiredClasses <= rewards[j].requiredClasses
  }

  /** With rewards listed by increasing threshold (as the seed rewards are), the next
      reward is the locked one with the smallest threshold. */
  lemma NextRewardIsNearest(rewards: seq<Reward>, classesCompleted: int)
    requires Ascending(rewards)
    ensures var next := NextReward(rewards, classesCompleted);
      next.Some? ==> forall i :: 0 <= i < |rewards| && !IsUnlocked(rewards[i], classesCompleted) ==>
        next.value.requiredClasses <= rewards[i].requiredClasses
  {
    var p := (r: Reward) => r.requiredClasses > classesCompleted;
    var k := FindIndex(rewards, p);
    if k.Some? {
      forall i | 0 <= i < |rewards| && !IsUnlocked(rewards[i], classesCompleted)
        ensures rewards[k.value].requiredClasses <= rewards[i].requiredClasses
      {
        assert p(rewards[i]);
        assert k.value <= i;
      }
    }
  }

  lemma QuotientBelowOne(part: real, total: real)
    requires 0.0 <= part < total
    ensures 0.0 <= part / total < 1.0
  {
    var q := part / total;
    assert q * total == part;
  }

  /** `progressPercentage`: the share of the next reward's threshold reached so far,
      or 100 when every reward is unlocked. */
  function ProgressPercentage(rewards: seq<Reward>, classesCompleted: nat): (p: real)
    ensures NextReward(rewards, classesCompleted).None? <==> p == 100.0
    ensures 0.0 <= p <= 100.0
  {
    match NextReward(rewards, classesCompleted)
    case None => 100.0
    case Some(r) =>
      var frac := classesCompleted as real / r.requiredClasses as real;
      assert 0.0 <= frac < 1.0 by {
        var total := r.requiredClasses as real;
        assert classesCompleted as real < total && total > 0.0;
        QuotientBelowOne(classesCompleted as real, total);
      }
      frac * 100.0
  }

  datatype ProfileField = NameField | LevelField

  /** The editing state: whether the form is open and the draft user. `user` mirrors
      the prop the shell passes in. */
  class ProfileEditor {
    var user: User
    var isEditing: bool
    var editedUser: User

    /** The draft is the user with at most name, level and avatar changed. */
    ghost predicate Valid()
      reads this
    {
      editedUser.id == user.id && editedUser.email == user.email &&
      editedUser.classesCompleted == user.classesCompleted
    }

    constructor (u: User)
      ensures user == u && editedUser == u && !isEditing && Valid()
    {
      user, editedUser, isEditing := u, u, false;
    }

    /** The effect that copies a changed `user` prop into the draft. */
    method SyncUser(u: User)
      modifies this
      ensures user == u && editedUser == u && isEditing == old(isEditing) && Valid()
    {
      user := u;
      editedUser := u;
    }

    method StartEditing()
      modifies this
      ensures isEditing && user == old(user) && editedUser == old(editedUser)
    {
      isEditing := true;
    }

    /** `handleInputChange` for the two text inputs, `name` and `level`. */
    method InputChange(field: ProfileField, value: string)
      requires Valid()
      modifies this
      ensures Valid() && user == old(user) && isEditing == old(isEditing)
      ensures editedUser == match field
        case NameField => old(editedUser).(name := value)
        case LevelField => old(editedUser).(level := value)
    {
      match field
      case NameField => editedUser := editedUser.(name := value);
      case LevelField => editedUser := editedUser.(level := value);
    }

    /** The file reader's result replaces the draft avatar. */
    method AvatarLoaded(dataUrl: string)
      requires Valid()
      modifies this
      ensures Valid() && user == old(user) && isEditing == old(isEditing)
      ensures editedUser == old(editedUser).(avatarUrl := dataUrl)
    {
      editedUser := editedUser.(avatarUrl := dataUrl);
    }

    /** `handleSave`: hands the draft to `onUpdateUser` and closes the form. The record
        handed over keeps the user's id, so it replaces that user's entry. */
    method Save() returns (updated: User)
      requires Valid()
      modifies this
      ensures updated == old(editedUser) && !isEditing
      ensures updated.id == user.id && updated.email == user.email &&
              updated.classesCompleted == user.classesCompleted
      ensures user == old(user) && editedUser == old(editedUser) && Valid()
    {
      updated := editedUser;
      isEditing := false;
    }

    /** `handleCancel`: the draft reverts to the user. */
    method Cancel()
      modifies this
      ensures editedUser == user && !isEditing && user == old(user) && Valid()
    {
      editedUser := user;
      isEditing := false;
    }
  }
}
