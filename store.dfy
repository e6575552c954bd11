/** The guild settings table of src/database.js, reduced to the settings map the core
    reads and writes: the row of each guild, created with the column defaults on first
    read. SQL, the other tables and timestamps are not modelled. */
module Store {

  datatype GuildSettings = GuildSettings(volume: int, shuffleMode: int, eqMode: string)

  /** The column defaults of guild_settings: volume 50, shuffle_mode 1, eq_mode 'normal'. */
  const DefaultSettings := GuildSettings(50, 1, "normal")

  /** One updateSettings call for one of the keys the core writes. */
  datatype Setting = Volume(percent: int) | ShuffleMode(flag: int) | EqMode(mode: string)

  /** The row after writing one column. */
  function Apply(row: GuildSettings, setting: Setting): GuildSettings
  {
    match setting
    case Volume(p) => row.(volume := p)
    case ShuffleMode(f) => row.(shuffleMode := f)
    case EqMode(m) => row.(eqMode := m)
  }

  class SettingsStore {
    var rows: map<string, GuildSettings>

    constructor ()
      ensures rows == map[]
    {
      rows := map[];
    }

    /** getSettings: the guild's row, inserting the defaults when there is none. */
    method GetSettings(guildId: string) returns (settings: GuildSettings)
      modifies this
      ensures rows == if guildId in old(rows) then old(rows) else old(rows)[guildId := DefaultSettings]
      ensures guildId in rows && settings == rows[guildId]
    {
      if guildId !in rows {
        rows := rows[guildId := DefaultSettings];
      }
      settings := rows[guildId];
    }

    /** updateSettings: makes sure the row exists, then changes the one column. */
    method UpdateSetting(guildId: string, setting: Setting)
      modifies this
      ensures guildId in rows
      ensures rows == old(rows)[guildId := Apply(if guildId in old(rows) then old(rows)[guildId] else DefaultSettings, setting)]
    {
      var row := GetSettings(guildId);
      rows := rows[guildId := Apply(row, setting)];
    }
  }
}
